/** The few functions of Go's strings package that the sort parser uses, on sequences of code points. */
module GoStrings {

  /** unicode.IsSpace. */
  predicate IsSpace(c: char) {
    var code := c as int;
    9 <= code <= 13 || code == 32 || code == 0x85 || code == 0xA0 || code == 0x1680
    || 0x2000 <= code <= 0x200A || code == 0x2028 || code == 0x2029 || code == 0x202F || code == 0x205F
    || code == 0x3000
  }

  /** Among the ASCII characters these are tab, line feed, vertical tab, form feed, carriage return and blank. */
  lemma AsciiSpaces(c: char)
    requires c as int < 128
    ensures IsSpace(c) <==> c in "\t\n\r " || c as int in {11, 12}
  {
  }

  /** Neither end is white space. */
  predicate Trimmed(s: string) {
    s != "" ==> !IsSpace(s[0]) && !IsSpace(s[|s| - 1])
  }

  function TrimLeft(s: string): string {
    if s != "" && IsSpace(s[0]) then TrimLeft(s[1..]) else s
  }

  function TrimRight(s: string): string {
    if s != "" && IsSpace(s[|s| - 1]) then TrimRight(s[..|s| - 1]) else s
  }

  function TrimSpace(s: string): string {
    TrimRight(TrimLeft(s))
  }

  lemma {:induction false} TrimLeftShape(s: string)
    ensures TrimLeft(s) != "" ==> !IsSpace(TrimLeft(s)[0])
    ensures forall c :: c in TrimLeft(s) ==> c in s
  {
    if s != "" && IsSpace(s[0]) {
      TrimLeftShape(s[1..]);
    }
  }

  lemma {:induction false} TrimRightShape(s: string)
    ensures TrimRight(s) <= s
    ensures TrimRight(s) != "" ==> !IsSpace(TrimRight(s)[|TrimRight(s)| - 1])
  {
    if s != "" && IsSpace(s[|s| - 1]) {
      TrimRightShape(s[..|s| - 1]);
    }
  }

  lemma TrimSpaceShape(s: string)
    ensures Trimmed(TrimSpace(s))
    ensures forall c :: c in TrimSpace(s) ==> c in s
    ensures Trimmed(s) ==> TrimSpace(s) == s
  {
    TrimLeftShape(s);
    TrimRightShape(TrimLeft(s));
  }

  /** strings.Split(s, ","). */
  function Split(s: string): (parts: seq<string>)
    ensures |parts| > 0
  {
    if s == "" then [""]
    else if s[0] == ',' then [""] + Split(s[1..])
    else
      var rest := Split(s[1..]);
      [[s[0]] + rest[0]] + rest[1..]
  }

  /** strings.Join. */
  function Join(parts: seq<string>, sep: string): string {
    if parts == [] then ""
    else if |parts| == 1 then parts[0]
    else parts[0] + sep + Join(parts[1..], sep)
  }

  /** Between any two parts, and nowhere else, stands the separator. */
  lemma {:induction false} JoinMore(parts: seq<string>, part: string, sep: string)
    ensures Join(parts + [part], sep) == if parts == [] then part else Join(parts, sep) + sep + part
  {
    if |parts| > 0 {
      assert (parts + [part])[1..] == parts[1..] + [part];
      JoinMore(parts[1..], part, sep);
    }
  }

  lemma {:induction false} SplitHasNoCommas(s: string)
    ensures forall part :: part in Split(s) ==> ',' !in part
  {
    if s != "" {
      SplitHasNoCommas(s[1..]);
      var rest := Split(s[1..]);
      assert rest[0] in rest;
      assert forall part :: part in rest[1..] ==> part in rest;
    }
  }

  lemma {:induction false} SplitPart(part: string, rest: string)
    requires ',' !in part
    ensures Split(part) == [part]
    ensures Split(part + "," + rest) == [part] + Split(rest)
  {
    if part == "" {
      assert (part + "," + rest)[1..] == rest;
    } else {
      assert [part[0]] + part[1..] == part;
      assert (part + "," + rest)[1..] == part[1..] + "," + rest;
      SplitPart(part[1..], rest);
    }
  }

  /** Splitting undoes joining, for parts without commas. */
  lemma {:induction false} SplitJoin(parts: seq<string>)
    requires parts != []
    requires forall part :: part in parts ==> ',' !in part
    ensures Split(Join(parts, ",")) == parts
  {
    assert parts[0] in parts;
    if |parts| == 1 {
      SplitPart(parts[0], "");
    } else {
      SplitJoin(parts[1..]);
      SplitPart(parts[0], Join(parts[1..], ","));
    }
  }

  lemma {:induction false} JoinTrimmed(parts: seq<string>)
    requires parts != []
    requires forall part :: part in parts ==> part != "" && Trimmed(part)
    ensures Join(parts, ",") != "" && Trimmed(Join(parts, ","))
  {
    assert parts[0] in parts;
    if |parts| > 1 {
      assert forall part :: part in parts[1..] ==> part in parts;
      JoinTrimmed(parts[1..]);
    }
  }

  /** strings.IndexAny(s, ":. "). */
  function IndexSeparator(s: string): (idx: int)
    ensures -1 <= idx < |s|
  {
    if s == "" then -1
    else if s[0] in ":. " then 0
    else
      var rest := IndexSeparator(s[1..]);
      if rest == -1 then -1 else rest + 1
  }

  lemma {:induction false} SeparatorAfter(field: string, rest: string)
    requires forall c :: c in field ==> c !in ":. "
    ensures IndexSeparator(field) == -1
    ensures rest != "" && rest[0] in ":. " ==> IndexSeparator(field + rest) == |field|
  {
    if field == "" {
      assert field + rest == rest;
    } else {
      assert (field + rest)[1..] == field[1..] + rest;
      SeparatorAfter(field[1..], rest);
    }
  }

  /**
   strings.ToUpper, as far as its result can be "DESC": besides the ASCII letters, only the long s
   (U+017F) has one of these capitals.
   */
  function UpperChar(c: char): char {
    if 'a' <= c <= 'z' then (c as int - 32) as char
    else if c as int == 0x17F then 'S'
    else c
  }

  function ToUpper(s: string): string {
    seq(|s|, i requires 0 <= i < |s| => UpperChar(s[i]))
  }

  lemma UpperWords()
    ensures TrimSpace("desc") == "desc" && ToUpper("desc") == "DESC"
    ensures TrimSpace("asc") == "asc" && ToUpper("asc") != "DESC"
  {
    TrimSpaceShape("desc");
    TrimSpaceShape("asc");
    assert |ToUpper("asc")| == 3;
  }
}
