/**
 `ParseSort` of pkg/pagination/sort.go, and the printed forms that it reads back.
 */
module SortParser {
  import opened Wrappers
  import opened GoStrings

  /** OrderDirection is a string in the source; anything but "ASC" and "DESC" is Other. */
  datatype Order = Asc | Desc | Other

  datatype Criterion = Criterion(field: string, order: Order)

  // ---- The specification ----

  /** The forms field:desc, field.desc, "field desc" and a bare field. */
  function ParsePair(token: string): Option<Criterion> {
    var idx := IndexSeparator(token);
    var field := if idx != -1 then TrimSpace(token[..idx]) else token;
    var desc := idx != -1 && ToUpper(TrimSpace(token[idx + 1..])) == "DESC";
    if field == "" then None else Some(Criterion(field, if desc then Desc else Asc))
  }

  function ParseToken(raw: string): Option<Criterion> {
    var token := TrimSpace(raw);
    if token == "" then None
    else if token[0] == '-' && token != "-" then Some(Criterion(token[1..], Desc))
    else if token[0] == '+' && token != "+" then Some(Criterion(token[1..], Asc))
    else ParsePair(token)
  }

  /** What the token loop collects. */
  function Collect(tokens: seq<string>): seq<Criterion> {
    if tokens == [] then []
    else
      var front := Collect(tokens[..|tokens| - 1]);
      match ParseToken(tokens[|tokens| - 1])
      case None => front
      case Some(c) => front + [c]
  }

  function Criteria(query: string): seq<Criterion> {
    var trimmed := TrimSpace(query);
    if trimmed == "" then [] else Collect(Split(trimmed))
  }

  function Parsed(query: string, defaultField: string, defaultOrder: Order): seq<Criterion> {
    var criteria := Criteria(query);
    if criteria == [] && defaultField != "" then [Criterion(defaultField, if defaultOrder == Desc then Desc else Asc)]
    else criteria
  }

  // ---- The source's loop ----

  /** The body of the token loop: the criterion that one token appends, if any. */
  method ParseOne(raw: string) returns (parsed: Option<Criterion>)
    ensures parsed == ParseToken(raw)
  {
    var token := TrimSpace(raw);
    if token == "" {
      return None;
    }
    if token[0] == '-' {
      var signed := token[1..];
      if signed != "" {
        return Some(Criterion(signed, Desc));
      }
    } else if token[0] == '+' {
      var signed := token[1..];
      if signed != "" {
        return Some(Criterion(signed, Asc));
      }
    }
    var field, order := token, Asc;
    var idx := IndexSeparator(token);
    if idx != -1 {
      field := TrimSpace(token[..idx]);
      if ToUpper(TrimSpace(token[idx + 1..])) == "DESC" {
        order := Desc;
      }
    }
    if field != "" {
      return Some(Criterion(field, order));
    }
    return None;
  }

  method ParseSort(query: string, defaultField: string, defaultOrder: Order) returns (criteria: seq<Criterion>)
    ensures criteria == Parsed(query, defaultField, defaultOrder)
  {
    var trimmed := TrimSpace(query);
    criteria := [];
    if trimmed != "" {
      var tokens := Split(trimmed);
      for n := 0 to |tokens|
        invariant criteria == Collect(tokens[..n])
      {
        assert tokens[..n + 1][..n] == tokens[..n];
        var parsed := ParseOne(tokens[n]);
        if parsed.Some? {
          criteria := criteria + [parsed.value];
        }
      }
      assert tokens[..|tokens|] == tokens;
    }
    if criteria == [] && defaultField != "" {
      var order := defaultOrder;
      if order != Desc {
        order := Asc;
      }
      criteria := [Criterion(defaultField, order)];
    }
  }

  // ---- Printing ----

  /** The notations of the doc comment: a sign, a pair with one of the three separators, or the bare field. */
  datatype Style = Sign | Pair(sep: char) | Bare

  function Print(c: Criterion, style: Style): string {
    match style
    case Sign => (if c.order == Desc then "-" else "+") + c.field
    case Pair(sep) => c.field + [sep] + (if c.order == Desc then "desc" else "asc")
    case Bare => c.field
  }

  /** When a criterion survives being printed in this style and read back. */
  predicate Printable(c: Criterion, style: Style) {
    && c.field != "" && ',' !in c.field && c.order != Other
    && match style
       case Sign => !IsSpace(c.field[|c.field| - 1])
       case Pair(sep) => PlainField(c.field) && sep in ":. "
       case Bare => PlainField(c.field) && c.order == Asc
  }

  predicate PlainField(field: string)
    requires field != ""
  {
    Trimmed(field) && field[0] !in "+-" && forall ch :: ch in field ==> ch !in ":. "
  }

  lemma PairParses(field: string, sep: char, word: string)
    requires field != "" && PlainField(field) && sep in ":. "
    ensures ParsePair(field + [sep] + word)
            == Some(Criterion(field, if ToUpper(TrimSpace(word)) == "DESC" then Desc else Asc))
  {
    var printed := field + [sep] + word;
    assert printed == field + ([sep] + word);
    SeparatorAfter(field, [sep] + word);
    assert printed[..|field|] == field && printed[|field| + 1..] == word;
    TrimSpaceShape(field);
  }

  /** A printed token is read back; it is also safe to join with commas. */
  lemma PrintedToken(c: Criterion, style: Style)
    requires Printable(c, style)
    ensures ParseToken(Print(c, style)) == Some(c)
    ensures Print(c, style) != "" && Trimmed(Print(c, style)) && ',' !in Print(c, style)
  {
    match style {
      case Sign => SignedToken(c);
      case Pair(sep) => PairToken(c, sep);
      case Bare =>
        SeparatorAfter(c.field, "");
        TrimSpaceShape(c.field);
    }
  }

  lemma SignedToken(c: Criterion)
    requires Printable(c, Sign)
    ensures ParseToken(Print(c, Sign)) == Some(c)
    ensures Print(c, Sign) != "" && Trimmed(Print(c, Sign)) && ',' !in Print(c, Sign)
  {
    var printed := Print(c, Sign);
    assert printed[1..] == c.field;
    TrimSpaceShape(printed);
  }

  lemma PairToken(c: Criterion, sep: char)
    requires Printable(c, Pair(sep))
    ensures ParseToken(Print(c, Pair(sep))) == Some(c)
    ensures Print(c, Pair(sep)) != "" && Trimmed(Print(c, Pair(sep))) && ',' !in Print(c, Pair(sep))
  {
    var word := if c.order == Desc then "desc" else "asc";
    var printed := Print(c, Pair(sep));
    assert printed[0] == c.field[0] && printed[|printed| - 1] == 'c';
    UpperWords();
    PairParses(c.field, sep, word);
    TrimSpaceShape(printed);
  }

  datatype Styled = Styled(criterion: Criterion, style: Style)

  function PrintAll(items: seq<Styled>): seq<string> {
    seq(|items|, i requires 0 <= i < |items| => Print(items[i].criterion, items[i].style))
  }

  function CriteriaOf(items: seq<Styled>): seq<Criterion> {
    seq(|items|, i requires 0 <= i < |items| => items[i].criterion)
  }

  predicate AllPrintable(items: seq<Styled>) {
    forall item :: item in items ==> Printable(item.criterion, item.style)
  }

  lemma CollectMore(tokens: seq<string>, token: string, c: Criterion)
    requires ParseToken(token) == Some(c)
    ensures Collect(tokens + [token]) == Collect(tokens) + [c]
  {
    assert (tokens + [token])[..|tokens|] == tokens;
  }

  lemma PrintMore(items: seq<Styled>)
    requires items != []
    ensures var front, last := items[..|items| - 1], items[|items| - 1];
            && PrintAll(items) == PrintAll(front) + [Print(last.criterion, last.style)]
            && CriteriaOf(items) == CriteriaOf(front) + [last.criterion]
  {
  }

  lemma {:induction false} CollectPrinted(items: seq<Styled>)
    requires AllPrintable(items)
    ensures Collect(PrintAll(items)) == CriteriaOf(items)
  {
    if items != [] {
      var front, last := items[..|items| - 1], items[|items| - 1];
      assert AllPrintable(front) && last in items;
      CollectPrinted(front);
      PrintedToken(last.criterion, last.style);
      PrintMore(items);
      CollectMore(PrintAll(front), Print(last.criterion, last.style), last.criterion);
    }
  }

  /** Round trip: any nonempty list of criteria, each printed in any notation it fits, parses back to itself. */
  lemma RoundTrip(items: seq<Styled>, defaultField: string, defaultOrder: Order)
    requires items != [] && AllPrintable(items)
    ensures Parsed(Join(PrintAll(items), ","), defaultField, defaultOrder) == CriteriaOf(items)
  {
    var parts := PrintAll(items);
    forall part | part in parts ensures part != "" && Trimmed(part) && ',' !in part {
      var i :| 0 <= i < |parts| && parts[i] == part;
      assert items[i] in items;
      PrintedToken(items[i].criterion, items[i].style);
    }
    JoinTrimmed(parts);
    TrimSpaceShape(Join(parts, ","));
    SplitJoin(parts);
    CollectPrinted(items);
  }

  // ---- Every query has a canonical form ----

  lemma TokenIsPrintable(raw: string)
    requires ',' !in raw && ParseToken(raw).Some?
    ensures Printable(ParseToken(raw).value, Sign)
  {
    TrimSpaceShape(raw);
    var token := TrimSpace(raw);
    var idx := IndexSeparator(token);
    if idx != -1 {
      TrimSpaceShape(token[..idx]);
    }
  }

  lemma {:induction false} CollectIsPrintable(tokens: seq<string>)
    requires forall token :: token in tokens ==> ',' !in token
    ensures forall c :: c in Collect(tokens) ==> Printable(c, Sign)
  {
    if tokens != [] {
      CollectIsPrintable(tokens[..|tokens| - 1]);
      var last := tokens[|tokens| - 1];
      assert last in tokens;
      if ParseToken(last).Some? {
        TokenIsPrintable(last);
      }
    }
  }

  function Signed(criteria: seq<Criterion>): seq<Styled> {
    seq(|criteria|, i requires 0 <= i < |criteria| => Styled(criteria[i], Sign))
  }

  /** Whatever the query, what it parses to can be printed with signs, and that parses to the same criteria. */
  lemma CanonicalForm(query: string, defaultField: string, defaultOrder: Order)
    requires Criteria(query) != []
    ensures Parsed(Join(PrintAll(Signed(Criteria(query))), ","), defaultField, defaultOrder)
            == Parsed(query, defaultField, defaultOrder)
  {
    var criteria := Criteria(query);
    SplitHasNoCommas(TrimSpace(query));
    CollectIsPrintable(Split(TrimSpace(query)));
    var items := Signed(criteria);
    forall item | item in items ensures Printable(item.criterion, item.style) {
      var i :| 0 <= i < |items| && items[i] == item;
      assert criteria[i] in criteria;
    }
    RoundTrip(items, defaultField, defaultOrder);
    assert CriteriaOf(items) == criteria;
  }

  // ---- Direction suffixes ----

  /**
   A plain field followed by one character and "desc" is read as that field, descending, exactly for the
   three separators; after any other character, the underscore included, the whole token is a field.
   */
  lemma SuffixNeedsSeparator(field: string, sep: char)
    requires field != "" && PlainField(field)
    ensures var parsed := ParseToken(field + [sep] + "desc");
            && (parsed == Some(Criterion(field, Desc)) <==> sep in ":. ")
            && (sep !in ":. " ==> parsed == Some(Criterion(field + [sep] + "desc", Asc)))
  {
    var token := field + [sep] + "desc";
    assert token[0] == field[0] && token[|token| - 1] == 'c';
    TrimSpaceShape(token);
    if sep in ":. " {
      UpperWords();
      PairParses(field, sep, "desc");
    } else {
      SeparatorAfter(token, "");
    }
  }

  /** Such a query sorts ascending by a field whose name ends in "_desc". */
  lemma UnderscoreIsNoSuffix(field: string, defaultField: string, defaultOrder: Order)
    requires field != "" && PlainField(field) && ',' !in field
    ensures Parsed(field + "_desc", defaultField, defaultOrder) == [Criterion(field + "_desc", Asc)]
  {
    var token := field + "_desc";
    assert token == field + ['_'] + "desc" && token[0] == field[0] && token[|token| - 1] == 'c';
    SuffixNeedsSeparator(field, '_');
    OneToken(token);
  }

  lemma OneToken(token: string)
    requires token != "" && Trimmed(token) && ',' !in token
    ensures Criteria(token) == match ParseToken(token) case None => [] case Some(c) => [c]
  {
    TrimSpaceShape(token);
    SplitPart(token, "");
    assert Collect([token][..0]) == [];
    assert Criteria(token) == Collect([token]);
  }

  /** A token that is only a sign is a field of that name; with anything after it, it is a sign. */
  lemma SignNeedsField(sign: char, rest: string, defaultField: string, defaultOrder: Order)
    requires sign in "+-" && Trimmed([sign] + rest) && ',' !in rest
    ensures Parsed([sign] + rest, defaultField, defaultOrder)
            == if rest == "" then [Criterion([sign], Asc)] else [Criterion(rest, if sign == '-' then Desc else Asc)]
  {
    var token := [sign] + rest;
    OneToken(token);
    TrimSpaceShape(token);
    if rest == "" {
      SeparatorAfter(token, "");
    } else {
      assert token[1..] == rest;
    }
  }

  /** This word is "desc" in some capitalisation; Go's upper case of the long s (U+017F) is also S. */
  predicate SaysDesc(word: string) {
    |word| == 4 && word[0] in "dD" && word[1] in "eE" && (word[2] in "sS" || word[2] as int == 0x17F) && word[3] in "cC"
  }

  lemma UpperSaysDesc(word: string)
    ensures ToUpper(word) == "DESC" <==> SaysDesc(word)
  {
    if |word| == 4 {
      assert ToUpper(word) == [UpperChar(word[0]), UpperChar(word[1]), UpperChar(word[2]), UpperChar(word[3])];
    } else {
      assert |ToUpper(word)| != 4;
    }
  }

  /** After a separator, exactly the capitalisations of "desc" mean descending. */
  lemma AnyCapitalisation(field: string, sep: char, word: string)
    requires field != "" && PlainField(field) && sep in ":. " && word != "" && Trimmed(word)
    ensures ParseToken(field + [sep] + word) == Some(Criterion(field, if SaysDesc(word) then Desc else Asc))
  {
    var token := field + [sep] + word;
    assert token[0] == field[0] && token[|token| - 1] == word[|word| - 1];
    TrimSpaceShape(token);
    TrimSpaceShape(word);
    PairParses(field, sep, word);
    UpperSaysDesc(word);
  }

  // ---- Queries without criteria ----

  /** A part of the query that names no field: it is blank, or has a separator where its field should be. */
  predicate NoField(part: string) {
    var token := TrimSpace(part);
    token == "" || token[0] in ":."
  }

  lemma NoFieldParsesToNone(part: string)
    ensures ParseToken(part) == None <==> NoField(part)
  {
    var token := TrimSpace(part);
    TrimSpaceShape(part);
    if token != "" {
      var idx := IndexSeparator(token);
      if idx > 0 {
        assert token[..idx][0] == token[0];
        TrimKeepsFirst(token[..idx]);
      }
    }
  }

  lemma {:induction false} TrimKeepsFirst(s: string)
    requires s != "" && !IsSpace(s[0])
    ensures TrimSpace(s) != ""
    decreases |s|
  {
    if IsSpace(s[|s| - 1]) {
      TrimKeepsFirst(s[..|s| - 1]);
    }
  }

  lemma {:induction false} CollectNothing(tokens: seq<string>)
    ensures Collect(tokens) == [] <==> forall i :: 0 <= i < |tokens| ==> NoField(tokens[i])
  {
    if tokens != [] {
      var front := tokens[..|tokens| - 1];
      CollectNothing(front);
      NoFieldParsesToNone(tokens[|tokens| - 1]);
      assert forall i :: 0 <= i < |front| ==> front[i] == tokens[i];
    }
  }

  predicate NamesNoField(query: string) {
    forall part :: part in Split(TrimSpace(query)) ==> NoField(part)
  }

  /**
   The default is used exactly when no part of the query names a field: it is the default field, descending only
   if the default order is, or nothing when there is no default field.
   */
  lemma DefaultTakenExactlyWhen(query: string, defaultField: string, defaultOrder: Order)
    ensures NamesNoField(query) ==>
              Parsed(query, defaultField, defaultOrder)
              == (if defaultField == "" then []
                  else [Criterion(defaultField, if defaultOrder == Desc then Desc else Asc)])
    ensures !NamesNoField(query) ==>
              Parsed(query, defaultField, defaultOrder) == Collect(Split(TrimSpace(query))) != []
  {
    var parts := Split(TrimSpace(query));
    CollectNothing(parts);
    if TrimSpace(query) == "" {
      assert parts == [""] && NoField(parts[0]);
    }
    if NamesNoField(query) {
      assert forall i :: 0 <= i < |parts| ==> NoField(parts[i]);
      assert Criteria(query) == [];
    } else {
      assert Criteria(query) == Collect(parts);
    }
  }
}
