/**
 A reader of SQL statements, written apart from the builder: it cuts a text at its keywords and separators. What it
 reads in a sent statement, its values put back in, is what the calls asked for.
 */
module SqlReader {
  import opened Common
  import opened SqlSerializer

  type Text = seq<Piece>

  // ---- Cutting a text at a keyword -------------------------------------------------------

  /** The first position of a keyword, or the length of the text. */
  function Find(text: Text, keyword: Text): (i: nat)
    ensures i <= |text|
  {
    if text == [] then 0 else if keyword <= text then 0 else 1 + Find(text[1..], keyword)
  }

  datatype Cut = Cut(before: Text, after: Option<Text>)

  function CutAt(text: Text, keyword: Text): Cut
    requires keyword != []
  {
    var i := Find(text, keyword);
    if i + |keyword| <= |text| then Cut(text[..i], Some(text[i + |keyword|..])) else Cut(text, None)
  }

  function Split(text: Text, separator: Text): seq<Text>
    requires separator != []
    decreases |text|
  {
    var i := Find(text, separator);
    if i + |separator| <= |text| then [text[..i]] + Split(text[i + |separator|..], separator) else [text]
  }

  /** No occurrence of the keyword begins in the text, whatever follows it. */
  predicate Clear(text: Text, keyword: Text) {
    forall i :: 0 <= i < |text| ==> !(keyword <= text[i..]) && !(text[i..] <= keyword)
  }

  lemma ClearRest(text: Text, keyword: Text)
    requires Clear(text, keyword) && text != []
    ensures Clear(text[1..], keyword)
  {
    assert forall i :: 0 <= i < |text| - 1 ==> text[1..][i..] == text[i + 1..];
  }

  lemma PrefixOfSum(x: Text, y: Text, keyword: Text)
    ensures keyword <= x + y ==> keyword <= x || x <= keyword
    ensures x + y <= keyword ==> x <= keyword
  {
    assert (x + y)[..|x|] == x;
    assert |keyword| <= |x| ==> (x + y)[..|keyword|] == x[..|keyword|];
    if x + y <= keyword { assert keyword[..|x|] == keyword[..|x + y|][..|x|]; }
    if keyword <= x + y && |x| <= |keyword| { assert keyword[..|x|] == (x + y)[..|keyword|][..|x|]; }
  }

  lemma ClearAppend(x: Text, y: Text, keyword: Text)
    requires Clear(x, keyword) && Clear(y, keyword)
    ensures Clear(x + y, keyword)
  {
    forall i | 0 <= i < |x + y|
      ensures !(keyword <= (x + y)[i..]) && !((x + y)[i..] <= keyword)
    {
      if i < |x| {
        assert (x + y)[i..] == x[i..] + y;
        PrefixOfSum(x[i..], y, keyword);
      } else {
        assert (x + y)[i..] == y[i - |x|..];
      }
    }
  }

  lemma {:induction false} FindSkips(x: Text, y: Text, keyword: Text)
    requires Clear(x, keyword)
    ensures Find(x + y, keyword) == |x| + Find(y, keyword)
  {
    if x == [] {
      assert x + y == y;
    } else {
      assert x[0..] == x && (x + y)[1..] == x[1..] + y;
      PrefixOfSum(x, y, keyword);
      ClearRest(x, keyword);
      FindSkips(x[1..], y, keyword);
    }
  }

  lemma CutFound(x: Text, keyword: Text, y: Text)
    requires keyword != [] && Clear(x, keyword)
    ensures CutAt(x + keyword + y, keyword) == Cut(x, Some(y))
  {
    var text := x + keyword + y;
    assert text == x + (keyword + y);
    FindSkips(x, keyword + y, keyword);
    assert keyword <= keyword + y;
    assert text[..|x|] == x && text[|x| + |keyword|..] == y;
  }

  lemma CutMissing(x: Text, keyword: Text)
    requires keyword != [] && Clear(x, keyword)
    ensures CutAt(x, keyword) == Cut(x, None)
  {
    FindSkips(x, [], keyword);
    assert x + [] == x;
  }

  /** A clause that may be missing. */
  function Clause(keyword: Text, body: Option<Text>): Text {
    if body.Some? then keyword + body.value else []
  }

  lemma CutClause(x: Text, keyword: Text, body: Option<Text>)
    requires keyword != [] && Clear(x, keyword)
    ensures CutAt(x + Clause(keyword, body), keyword) == Cut(x, body)
  {
    if body.Some? {
      CutFound(x, keyword, body.value);
      assert x + (keyword + body.value) == x + keyword + body.value;
    } else {
      CutMissing(x, keyword);
      assert x + [] == x;
    }
  }

  /** Splitting at a separator undoes joining with it. */
  lemma {:induction false} SplitJoined(parts: seq<Text>, separator: string)
    requires separator != "" && parts != [] && forall k :: 0 <= k < |parts| ==> Clear(parts[k], Plains(separator))
    ensures Split(JoinPieces(parts, separator), Plains(separator)) == parts
  {
    var sep := Plains(separator);
    if |parts| == 1 {
      SplitLast(parts[0], sep);
    } else {
      SplitFirst(parts[0], sep, JoinPieces(parts[1..], separator));
      SplitJoined(parts[1..], separator);
      assert parts == [parts[0]] + parts[1..];
    }
  }

  lemma SplitLast(part: Text, separator: Text)
    requires separator != [] && Clear(part, separator)
    ensures Split(part, separator) == [part]
  {
    FindSkips(part, [], separator);
    assert part + [] == part;
  }

  lemma SplitFirst(part: Text, separator: Text, rest: Text)
    requires separator != [] && Clear(part, separator)
    ensures Split(part + separator + rest, separator) == [part] + Split(rest, separator)
  {
    CutFound(part, separator, rest);
  }

  // ---- Which texts are clear ------------------------------------------------------------------

  /** Every suffix of the text differs from the keyword within its length. */
  predicate ClearChars(text: string, keyword: string) {
    text == "" || (!(keyword <= text) && !(text <= keyword) && ClearChars(text[1..], keyword))
  }

  lemma PlainsPrefix(a: string, b: string)
    ensures Plains(a) <= Plains(b) <==> a <= b
  {
    if Plains(a) <= Plains(b) {
      assert forall i :: 0 <= i < |a| ==> Plains(a)[i] == Plains(b)[i] && a[i] == b[i];
      assert b[..|a|] == a;
    }
  }

  lemma {:induction false} ClearPlains(text: string, keyword: string)
    requires ClearChars(text, keyword)
    ensures Clear(Plains(text), Plains(keyword))
  {
    if text != "" {
      PlainsPrefix(keyword, text);
      PlainsPrefix(text, keyword);
      ClearPlains(text[1..], keyword);
      var all := Plains(text);
      assert all[1..] == Plains(text[1..]);
      forall i | 0 <= i < |all|
        ensures !(Plains(keyword) <= all[i..]) && !(all[i..] <= Plains(keyword))
      {
        if i > 0 { assert all[i..] == all[1..][i - 1..]; } else { assert all[0..] == all; }
      }
    }
  }

  /** A text without the keyword's first character is clear of it. */
  lemma ClearWithoutFirst(text: Text, keyword: Text)
    requires keyword != [] && keyword[0] !in text
    ensures Clear(text, keyword)
  {
    forall i | 0 <= i < |text|
      ensures !(keyword <= text[i..]) && !(text[i..] <= keyword)
    {
      assert text[i..][0] == text[i] && text[i] in text;
    }
  }

  lemma PlainsAppend(a: string, b: string)
    ensures Plains(a + b) == Plains(a) + Plains(b)
  {
  }

  /** A clause is clear of a keyword when its words are and each of its parts, with the space before it, is. */
  lemma {:induction false} ClauseClear(first: string, glue: string, parts: seq<Text>, keyword: Text)
    requires parts != [] && Clear(Plains(first), keyword) && Clear(Plains(glue), keyword)
    requires forall k :: 0 <= k < |parts| ==> Clear(Plains(" ") + parts[k], keyword)
    ensures Clear(Plains(first + " ") + JoinPieces(parts, glue + " "), keyword)
    decreases |parts|
  {
    var spaced := Plains(" ") + parts[0];
    PlainsAppend(first, " ");
    ClearAppend(Plains(first), spaced, keyword);
    assert Plains(first + " ") + parts[0] == Plains(first) + spaced;
    if |parts| > 1 {
      var rest := Plains(glue + " ") + JoinPieces(parts[1..], glue + " ");
      ClauseClear(glue, glue, parts[1..], keyword);
      ClearAppend(Plains(first) + spaced, rest, keyword);
      assert Plains(first + " ") + JoinPieces(parts, glue + " ") == Plains(first) + spaced + rest;
    }
  }

  // ---- Numbers ------------------------------------------------------------------------------------

  function CharsOf(text: Text): string {
    if text == [] then "" else [if text[0].Plain? then text[0].c else '?'] + CharsOf(text[1..])
  }

  /** The value of decimal digits. */
  function DigitsValue(digits: string): int {
    if digits == "" then 0
    else 10 * DigitsValue(digits[..|digits| - 1]) + (digits[|digits| - 1] as int - '0' as int)
  }

  function NumberOf(text: Text): int {
    var s := CharsOf(text);
    if s != "" && s[0] == '-' then -DigitsValue(s[1..]) else DigitsValue(s)
  }

  predicate AllDigits(s: string) { forall i :: 0 <= i < |s| ==> '0' <= s[i] <= '9' }

  lemma {:induction false} CharsOfPlains(s: string)
    ensures CharsOf(Plains(s)) == s
  {
    if s != "" {
      assert Plains(s)[1..] == Plains(s[1..]);
      CharsOfPlains(s[1..]);
    }
  }

  lemma {:induction false} NumeralDigits(n: nat)
    ensures Numeral(n) != "" && AllDigits(Numeral(n)) && DigitsValue(Numeral(n)) == n
  {
    if n >= 10 {
      var s := Numeral(n);
      NumeralDigits(n / 10);
      assert s[..|s| - 1] == Numeral(n / 10);
    } else {
      assert Numeral(n)[..0] == "";
    }
  }

  /** A numeral reads as its number and holds no space. */
  lemma NumeralReadsBack(n: int)
    ensures NumberOf(Plains(Numeral(n))) == n
    ensures Plain(' ') !in Plains(Numeral(n))
  {
    CharsOfPlains(Numeral(n));
    NumeralDigits(if n < 0 then -n else n);
    if n < 0 { assert Numeral(n)[1..] == Numeral(-n); }
  }

  // ---- Reading a SELECT statement ----------------------------------------------------------------

  datatype Selected = Selected(text: Text, alias: Text)

  datatype Joined = Joined(kind: Text, table: Text, condition: Text)

  /** What a statement asks for; a page is its offset and its size. */
  datatype Reading = Reading(selected: seq<Selected>, table: Text, joins: seq<Joined>, conditions: seq<Text>,
      groups: seq<Text>, orders: seq<Text>, page: Option<(int, int)>)

  function Items(clause: Option<Text>, separator: Text): seq<Text>
    requires separator != []
  {
    if clause.Some? then Split(clause.value, separator) else []
  }

  function TextAfter(text: Text, keyword: string): Text
    requires keyword != ""
  {
    var cut := CutAt(text, Plains(keyword));
    if cut.after.Some? then cut.after.value else []
  }

  function TextBefore(text: Text, keyword: string): Text
    requires keyword != ""
  {
    CutAt(text, Plains(keyword)).before
  }

  function ReadField(text: Text): Selected {
    Selected(TextBefore(text, " AS ["), TextBefore(TextAfter(text, " AS ["), "]"))
  }

  function ReadFields(items: seq<Text>): seq<Selected> {
    if items == [] then [] else ReadFields(items[..|items| - 1]) + [ReadField(items[|items| - 1])]
  }

  /** The position of the next join. */
  function NextJoin(text: Text): (i: nat)
    ensures i <= |text|
  {
    var inner, left := Find(text, Plains(" INNER JOIN [")), Find(text, Plains(" LEFT JOIN ["));
    if inner < left then inner else left
  }

  function ReadJoins(text: Text): seq<Joined>
    decreases |text|
  {
    if text == [] then []
    else
      var kind, after := TextBefore(text[1..], " JOIN ["), TextAfter(text[1..], " JOIN [");
      var table, rest := TextBefore(after, "] ON "), TextAfter(after, "] ON ");
      var next := NextJoin(rest);
      [Joined(kind, table, rest[..next])] + if |rest| < |text| then ReadJoins(rest[next..]) else []
  }

  function ReadPage(page: Option<Text>): Option<(int, int)> {
    if page.None? then None
    else
      var size := TextAfter(page.value, " ROWS FETCH NEXT ");
      Some((NumberOf(TextBefore(page.value, " ROWS FETCH NEXT ")), NumberOf(TextBefore(size, " ROWS ONLY"))))
  }

  function ReadHead(head: Text, conditions: seq<Text>, groups: seq<Text>, orders: seq<Text>,
      page: Option<(int, int)>): Reading {
    var listed := TextAfter(head, "SELECT ");
    var named := TextAfter(listed, " FROM [");
    Reading(ReadFields(Split(TextBefore(listed, " FROM ["), Plains(", "))), TextBefore(named, "]"),
      ReadJoins(TextAfter(named, "]")), conditions, groups, orders, page)
  }

  /** The clauses are cut off from the last to the first. */
  function Read(text: Text): Reading {
    var paged := CutAt(text, Plains(" OFFSET "));
    var ordered := CutAt(paged.before, Plains(" ORDER BY "));
    var grouped := CutAt(ordered.before, Plains(" GROUP BY "));
    var filtered := CutAt(grouped.before, Plains(" WHERE "));
    ReadHead(filtered.before, Items(filtered.after, Plains(" AND ")), Items(grouped.after, Plains(", ")),
      Items(ordered.after, Plains(", ")), ReadPage(paged.after))
  }

  // ---- What the calls ask for -----------------------------------------------------------------------

  function FieldText(f: Field): Text {
    match f
    case Expression(_, chunks) => Inline(chunks)
    case ColumnField(_, table, name) => Plains(ColumnText(table, name))
    case Ignored(_) => []
  }

  /** The selected expressions and columns with their aliases, a star when there are none. */
  function AskedFields(fields: seq<Field>): seq<Selected> {
    if fields == [] then []
    else
      var last := fields[|fields| - 1];
      AskedFields(fields[..|fields| - 1])
      + if last.Ignored? then [] else [Selected(FieldText(last), Plains(last.alias))]
  }

  function AskedList(fields: Option<seq<Field>>): seq<Selected> {
    if fields.None? || AskedFields(fields.value) == [] then [Selected(Plains("*"), [])] else AskedFields(fields.value)
  }

  function AskedJoins(joins: seq<Join>): seq<Joined> {
    seq(|joins|, i requires 0 <= i < |joins| =>
      Joined(Plains(joins[i].kind), Plains(joins[i].table), Inline(joins[i].condition)))
  }

  /** A missing condition asks for nothing in particular. */
  function ConditionTexts(wheres: seq<Option<seq<Chunk>>>): seq<Text> {
    if wheres == [] then []
    else
      var last := wheres[|wheres| - 1];
      ConditionTexts(wheres[..|wheres| - 1]) + [if last.Some? then Inline(last.value) else Plains("1=1")]
  }

  function Unless(empty: Text): seq<Text> { if empty == [] then [] else [empty] }

  function OrderTexts(orders: seq<Option<seq<Chunk>>>): seq<Text> {
    if orders == [] then []
    else
      var last := orders[|orders| - 1];
      OrderTexts(orders[..|orders| - 1]) + Unless(if last.Some? then Inline(last.value) else [])
  }

  function GroupText(g: GroupBy): Text {
    match g
    case GroupQuery(chunks) => Inline(chunks)
    case GroupColumn(name) => if name == "" then [] else Plains("[" + name + "]")
    case GroupOther => []
  }

  function GroupTexts(groups: seq<GroupBy>): seq<Text> {
    if groups == [] then []
    else GroupTexts(groups[..|groups| - 1]) + Unless(GroupText(groups[|groups| - 1]))
  }

  /** A page needs an order, so a chain with neither orders nor groups asks for none in particular. */
  function AskedOrders(calls: seq<BuilderCall>): seq<Text> {
    if LastCap(calls).Some? && Sorts(calls) == [] && Groups(calls) == [] then [Plains("(SELECT NULL)")]
    else OrderTexts(Sorts(calls))
  }

  /** Without an offset the page starts at 0, and without a limit there is none. */
  function AskedPage(calls: seq<BuilderCall>): Option<(int, int)> {
    if LastCap(calls).None? then None
    else Some((if LastSkip(calls).Some? then LastSkip(calls).value else 0, LastCap(calls).value))
  }

  function Asked(fields: Option<seq<Field>>, table: string, calls: seq<BuilderCall>): Reading {
    Reading(AskedList(fields), Plains(table), AskedJoins(Joins(calls)), ConditionTexts(Filters(calls)),
      GroupTexts(Groups(calls)), AskedOrders(calls), AskedPage(calls))
  }

  // ---- Statements that can be read ----------------------------------------------------------------------

  datatype Keyword = Filtering | Grouping | Ordering | Paging

  function Rank(k: Keyword): nat {
    match k case Filtering => 0 case Grouping => 1 case Ordering => 2 case Paging => 3
  }

  /** The words that open a clause, without the space after them. */
  function Opening(k: Keyword): string {
    match k
    case Filtering => " WHERE"
    case Grouping => " GROUP BY"
    case Ordering => " ORDER BY"
    case Paging => " OFFSET"
  }

  function Marker(k: Keyword): Text { Plains(Opening(k) + " ") }

  /** The text is clear of every clause from this one on. */
  predicate ClearFrom(text: Text, rank: nat) { forall k :: rank <= Rank(k) ==> Clear(text, Marker(k)) }

  predicate Unmarked(text: Text) { ClearFrom(text, 0) }

  /** An entry of a clause holds none of the keywords, not even with the space before it, and no separator. */
  predicate LegibleItem(item: Text, separator: string) {
    Unmarked(Plains(" ") + item) && Clear(item, Plains(separator))
  }

  predicate LegibleItems(items: seq<Text>, separator: string) {
    forall k :: 0 <= k < |items| ==> LegibleItem(items[k], separator)
  }

  predicate LegibleField(f: Field) {
    !f.Ignored? ==>
      var item := FieldText(f) + Plains(" AS [" + f.alias + "]");
      && LegibleItem(item, ", ") && Clear(Plains(" ") + item, Plains(" FROM ["))
      && Clear(FieldText(f), Plains(" AS [")) && ']' !in f.alias
  }

  predicate LegibleJoin(j: Join) {
    && (j.kind == "INNER" || j.kind == "LEFT") && ']' !in j.table
    && Unmarked(Plains(" " + j.kind + " JOIN [" + j.table + "] ON")) && Unmarked(Plains(" ") + Inline(j.condition))
    && Clear(Inline(j.condition), Plains(" INNER JOIN [")) && Clear(Inline(j.condition), Plains(" LEFT JOIN ["))
  }

  /** No name, expression or condition of the chain holds a keyword or separator the reader cuts at. */
  predicate Legible(fields: Option<seq<Field>>, table: string, calls: seq<BuilderCall>) {
    && (fields.Some? ==> forall k :: 0 <= k < |fields.value| ==> LegibleField(fields.value[k]))
    && ']' !in table && Unmarked(Plains(" FROM [" + table + "]"))
    && (forall k :: 0 <= k < |Joins(calls)| ==> LegibleJoin(Joins(calls)[k]))
    && LegibleItems(ConditionTexts(Filters(calls)), " AND ") && LegibleItems(GroupTexts(Groups(calls)), ", ")
    && LegibleItems(OrderTexts(Sorts(calls)), ", ")
  }

  // ---- The parts of a statement ---------------------------------------------------------------------------

  lemma {:induction false} ConditionParts(wheres: seq<Option<seq<Chunk>>>)
    ensures PartsPieces(WhereParts(wheres)) == ConditionTexts(wheres)
    ensures |ConditionTexts(wheres)| == |wheres|
  {
    if wheres != [] {
      ConditionParts(wheres[..|wheres| - 1]);
      assert WhereParts(wheres)[..|wheres| - 1] == WhereParts(wheres[..|wheres| - 1]);
    }
  }

  lemma FilteredLast(parts: seq<Part>, last: Part)
    ensures NonEmpty(PartsPieces(parts + [last])) == NonEmpty(PartsPieces(parts)) + Unless(PartPieces(last))
  {
    assert (parts + [last])[..|parts|] == parts;
    NonEmptyLast(PartsPieces(parts), PartPieces(last));
  }

  lemma NoText()
    ensures Plains("") == []
  {
  }

  lemma OrderPartsLast(orders: seq<Option<seq<Chunk>>>)
    requires orders != []
    ensures OrderParts(orders) == OrderParts(orders[..|orders| - 1]) + [OrderPart(orders[|orders| - 1])]
  {
  }

  lemma GroupPartsLast(groups: seq<GroupBy>)
    requires groups != []
    ensures GroupParts(groups) == GroupParts(groups[..|groups| - 1]) + [GroupPart(groups[|groups| - 1])]
  {
  }

  lemma {:induction false} OrderItems(orders: seq<Option<seq<Chunk>>>)
    ensures NonEmpty(PartsPieces(OrderParts(orders))) == OrderTexts(orders)
  {
    if orders != [] {
      var init, last := orders[..|orders| - 1], orders[|orders| - 1];
      OrderItems(init);
      OrderPartsLast(orders);
      FilteredLast(OrderParts(init), OrderPart(last));
      OrderPartText(last);
    }
  }

  lemma OrderPartText(order: Option<seq<Chunk>>)
    ensures PartPieces(OrderPart(order)) == if order.Some? then Inline(order.value) else []
  {
    NoText();
  }

  lemma {:induction false} GroupItems(groups: seq<GroupBy>)
    ensures NonEmpty(PartsPieces(GroupParts(groups))) == GroupTexts(groups)
  {
    if groups != [] {
      var init, last := groups[..|groups| - 1], groups[|groups| - 1];
      GroupItems(init);
      GroupPartsLast(groups);
      FilteredLast(GroupParts(init), GroupPart(last));
      GroupPartText(last);
    }
  }

  lemma GroupPartText(g: GroupBy)
    ensures PartPieces(GroupPart(g)) == GroupText(g)
  {
    NoText();
  }

  /** A clause of these entries, missing when there are none. */
  function Listed(items: seq<Text>, separator: string): Option<Text> {
    if items == [] then None else Some(JoinPieces(items, separator))
  }

  lemma ListedReadsBack(items: seq<Text>, separator: string)
    requires separator != "" && LegibleItems(items, separator)
    ensures Items(Listed(items, separator), Plains(separator)) == items
  {
    if items != [] {
      forall k | 0 <= k < |items|
        ensures Clear(items[k], Plains(separator))
      {
        assert LegibleItem(items[k], separator);
      }
      SplitJoined(items, separator);
    }
  }

  /** Text without a space, put in front, begins no keyword that starts with one. */
  lemma {:induction false} SpacelessClear(word: string, rest: string, keyword: string)
    requires keyword != "" && keyword[0] == ' ' && ' ' !in word && ClearChars(rest, keyword)
    ensures ClearChars(word + rest, keyword)
  {
    if word == "" {
      assert word + rest == rest;
    } else {
      var all := word + rest;
      assert all[0] == word[0] && all[1..] == word[1..] + rest;
      SpacelessClear(word[1..], rest, keyword);
    }
  }

  /** A word after a space, put in front, begins no keyword it differs from at some position. */
  lemma WordClear(word: string, rest: string, keyword: string, j: nat)
    requires keyword != "" && keyword[0] == ' ' && ' ' !in word && ClearChars(rest, keyword)
    requires j < |keyword| && j < |" " + word + rest| && (" " + word + rest)[j] != keyword[j]
    ensures ClearChars(" " + word + rest, keyword)
  {
    var all := " " + word + rest;
    assert all[1..] == word + rest;
    SpacelessClear(word, rest, keyword);
  }

  lemma PlainWord(word: string, keyword: string)
    requires keyword != "" && keyword[0] == ' ' && ' ' !in word
    ensures ClearChars(word, keyword)
  {
    SpacelessClear(word, "", keyword);
    assert word + "" == word;
  }

  /** An opening of two words is clear of a keyword that the first word differs from. */
  lemma TwoWordsClear(word: string, keyword: string, j: nat)
    requires |keyword| > 1 && keyword[0] == ' ' && keyword[1] != 'B' && ' ' !in word
    requires 1 <= j < |keyword| && j <= |word| && word[j - 1] != keyword[j]
    ensures ClearChars(" " + word + " BY", keyword)
  {
    WordClear("BY", "", keyword, 1);
    assert " " + "BY" + "" == " BY";
    WordClear(word, " BY", keyword, j);
  }

  /** The words of a clause begin none of the later ones. */
  lemma OpeningIsClear(k: Keyword, later: Keyword)
    requires Rank(k) < Rank(later)
    ensures Clear(Plains(Opening(k)), Marker(later))
  {
    var keyword := Opening(later) + " ";
    match k {
      case Filtering =>
        WordClear("WHERE", "", keyword, 1);
        assert " " + "WHERE" + "" == Opening(k);
      case Grouping =>
        TwoWordsClear("GROUP", keyword, 1);
        assert " " + "GROUP" + " BY" == Opening(k);
      case Ordering =>
        TwoWordsClear("ORDER", keyword, 2);
        assert " " + "ORDER" + " BY" == Opening(k);
    }
    ClearPlains(Opening(k), keyword);
  }

  lemma SpacelessIsClear(word: string, k: Keyword)
    requires ' ' !in word
    ensures Clear(Plains(word), Marker(k))
  {
    PlainWord(word, Opening(k) + " ");
    ClearPlains(word, Opening(k) + " ");
  }

  /** What stands between the entries of a clause. */
  function Glue(k: Keyword): string { if k == Filtering then " AND" else "," }

  lemma GlueIsClear(k: Keyword, later: Keyword)
    requires Rank(k) < Rank(later)
    ensures Clear(Plains(Glue(k)), Marker(later))
  {
    if k == Filtering {
      WordClear("AND", "", Opening(later) + " ", 1);
      assert " " + "AND" + "" == Glue(k);
      ClearPlains(Glue(k), Opening(later) + " ");
    } else {
      SpacelessIsClear(",", later);
    }
  }

  // ---- The clauses after the head ---------------------------------------------------------------------

  function ListOf(k: Keyword, items: seq<Text>): Option<Text> { Listed(items, Glue(k) + " ") }

  /** A text with one more clause of these entries. */
  function With(text: Text, k: Keyword, items: seq<Text>): Text { text + Clause(Marker(k), ListOf(k, items)) }

  lemma WithIsClear(text: Text, k: Keyword, items: seq<Text>, later: Keyword)
    requires Rank(k) < Rank(later) && Clear(text, Marker(later)) && LegibleItems(items, Glue(k) + " ")
    ensures Clear(With(text, k, items), Marker(later))
  {
    if items != [] {
      OpeningIsClear(k, later);
      GlueIsClear(k, later);
      forall i | 0 <= i < |items|
        ensures Clear(Plains(" ") + items[i], Marker(later))
      {
        assert LegibleItem(items[i], Glue(k) + " ");
      }
      ClauseClear(Opening(k), Glue(k), items, Marker(later));
      ClearAppend(text, Marker(k) + JoinPieces(items, Glue(k) + " "), Marker(later));
    } else {
      assert text + [] == text;
    }
  }

  lemma WithReadsBack(text: Text, k: Keyword, items: seq<Text>)
    requires ClearFrom(text, Rank(k)) && LegibleItems(items, Glue(k) + " ")
    ensures CutAt(With(text, k, items), Marker(k)) == Cut(text, ListOf(k, items))
    ensures ClearFrom(With(text, k, items), Rank(k) + 1)
  {
    CutClause(text, Marker(k), ListOf(k, items));
    forall later | Rank(k) + 1 <= Rank(later)
      ensures Clear(With(text, k, items), Marker(later))
    {
      WithIsClear(text, k, items, later);
    }
  }

  function PageText(page: Option<(int, int)>): Option<Text> {
    match page
    case None => None
    case Some(p) =>
      Some(Plains(Numeral(p.0)) + Plains(" ROWS FETCH NEXT ") + (Plains(Numeral(p.1)) + Plains(" ROWS ONLY")))
  }

  lemma PageReadsBack(page: Option<(int, int)>)
    ensures ReadPage(PageText(page)) == page
  {
    if page.Some? {
      var start, size := Plains(Numeral(page.value.0)), Plains(Numeral(page.value.1));
      NumeralReadsBack(page.value.0);
      NumeralReadsBack(page.value.1);
      ClearWithoutFirst(start, Plains(" ROWS FETCH NEXT "));
      CutFound(start, Plains(" ROWS FETCH NEXT "), size + Plains(" ROWS ONLY"));
      ClearWithoutFirst(size, Plains(" ROWS ONLY"));
      CutFound(size, Plains(" ROWS ONLY"), []);
      assert size + Plains(" ROWS ONLY") + [] == size + Plains(" ROWS ONLY");
    }
  }

  function Clauses(head: Text, conditions: seq<Text>, groups: seq<Text>, orders: seq<Text>): Text {
    With(With(With(head, Filtering, conditions), Grouping, groups), Ordering, orders)
  }

  predicate LegibleClauses(conditions: seq<Text>, groups: seq<Text>, orders: seq<Text>) {
    LegibleItems(conditions, " AND ") && LegibleItems(groups, ", ") && LegibleItems(orders, ", ")
  }

  lemma ClausesCut(head: Text, conditions: seq<Text>, groups: seq<Text>, orders: seq<Text>)
    requires Unmarked(head) && LegibleClauses(conditions, groups, orders)
    ensures var filtered := With(head, Filtering, conditions);
            var grouped := With(filtered, Grouping, groups);
            var text := Clauses(head, conditions, groups, orders);
            && Clear(text, Marker(Paging))
            && CutAt(text, Marker(Ordering)) == Cut(grouped, ListOf(Ordering, orders))
            && CutAt(grouped, Marker(Grouping)) == Cut(filtered, ListOf(Grouping, groups))
            && CutAt(filtered, Marker(Filtering)) == Cut(head, ListOf(Filtering, conditions))
  {
    var filtered := With(head, Filtering, conditions);
    var grouped := With(filtered, Grouping, groups);
    GlueWords();
    WithReadsBack(head, Filtering, conditions);
    WithReadsBack(filtered, Grouping, groups);
    WithReadsBack(grouped, Ordering, orders);
  }

  lemma GlueWords()
    ensures Glue(Filtering) + " " == " AND " && Glue(Grouping) + " " == ", " && Glue(Ordering) + " " == ", "
  {
  }

  lemma ListsReadBack(conditions: seq<Text>, groups: seq<Text>, orders: seq<Text>)
    requires LegibleClauses(conditions, groups, orders)
    ensures Items(ListOf(Filtering, conditions), Plains(" AND ")) == conditions
    ensures Items(ListOf(Grouping, groups), Plains(", ")) == groups
    ensures Items(ListOf(Ordering, orders), Plains(", ")) == orders
  {
    GlueWords();
    ListedReadsBack(conditions, " AND ");
    ListedReadsBack(groups, ", ");
    ListedReadsBack(orders, ", ");
  }

  /** Whatever the head, its clauses and its page read back. */
  lemma ClausesReadBack(head: Text, conditions: seq<Text>, groups: seq<Text>, orders: seq<Text>,
      page: Option<(int, int)>)
    requires Unmarked(head) && LegibleClauses(conditions, groups, orders)
    ensures Read(Clauses(head, conditions, groups, orders) + Clause(Plains(" OFFSET "), PageText(page)))
            == ReadHead(head, conditions, groups, orders, page)
  {
    ClausesCut(head, conditions, groups, orders);
    ListsReadBack(conditions, groups, orders);
    MarkersAreWords();
    CutClause(Clauses(head, conditions, groups, orders), Marker(Paging), PageText(page));
    PageReadsBack(page);
  }

  lemma MarkersAreWords()
    ensures Marker(Filtering) == Plains(" WHERE ") && Marker(Grouping) == Plains(" GROUP BY ")
    ensures Marker(Ordering) == Plains(" ORDER BY ") && Marker(Paging) == Plains(" OFFSET ")
  {
    assert " WHERE" + " " == " WHERE " && " GROUP BY" + " " == " GROUP BY ";
    assert " ORDER BY" + " " == " ORDER BY " && " OFFSET" + " " == " OFFSET ";
  }

  // ---- The head: the select list, the table and the joins -----------------------------------------------

  lemma ClearSuffix(x: Text, y: Text, keyword: Text)
    requires Clear(x + y, keyword)
    ensures Clear(y, keyword)
  {
    assert forall i :: 0 <= i < |y| ==> y[i..] == (x + y)[|x| + i..];
  }

  function ItemOf(f: Field): Text { FieldText(f) + Plains(" AS [" + f.alias + "]") }

  function ItemsOf(fields: seq<Field>): seq<Text> {
    if fields == [] then []
    else ItemsOf(fields[..|fields| - 1]) + if fields[|fields| - 1].Ignored? then [] else [ItemOf(fields[|fields| - 1])]
  }

  /** The entries of the select list. */
  function ListItems(fields: Option<seq<Field>>): seq<Text> {
    if fields.None? || ItemsOf(fields.value) == [] then [Plains("*")] else ItemsOf(fields.value)
  }

  lemma {:induction false} FieldsAreItems(fields: seq<Field>)
    ensures FieldsPieces(fields) == ItemsOf(fields)
  {
    if fields != [] {
      FieldsAreItems(fields[..|fields| - 1]);
      var last := fields[|fields| - 1];
      if last.ColumnField? { PlainsAppend(ColumnText(last.table, last.name), AliasText(last)); }
    }
  }

  lemma ListIsJoined(fields: Option<seq<Field>>)
    ensures ListPiecesOf(fields) == JoinPieces(ListItems(fields), ", ")
  {
    if fields.Some? { FieldsAreItems(fields.value); }
  }

  lemma AliasShape(alias: string)
    ensures Plains(" AS [" + alias + "]") == Plains(" AS [") + (Plains(alias) + Plains("]"))
  {
    PlainsAppend(" AS [" + alias, "]");
    PlainsAppend(" AS [", alias);
  }

  lemma FieldReadsBack(f: Field)
    requires !f.Ignored? && LegibleField(f)
    ensures ReadField(ItemOf(f)) == Selected(FieldText(f), Plains(f.alias))
  {
    var text, rest := FieldText(f), Plains(f.alias) + Plains("]");
    AliasShape(f.alias);
    AppendAssociates(text, Plains(" AS ["), rest);
    CutFound(text, Plains(" AS ["), rest);
    BracketReadsBack(f.alias);
  }

  /** A name without a closing bracket ends at the first one. */
  lemma BracketReadsBack(name: string)
    requires ']' !in name
    ensures TextBefore(Plains(name) + Plains("]"), "]") == Plains(name)
  {
    ClearWithoutFirst(Plains(name), Plains("]"));
    CutFound(Plains(name), Plains("]"), []);
    assert Plains(name) + Plains("]") + [] == Plains(name) + Plains("]");
  }

  lemma {:induction false} FieldsReadBack(fields: seq<Field>)
    requires forall k :: 0 <= k < |fields| ==> LegibleField(fields[k])
    ensures ReadFields(ItemsOf(fields)) == AskedFields(fields)
    ensures forall k :: 0 <= k < |ItemsOf(fields)| ==> LegibleListItem(ItemsOf(fields)[k])
  {
    if fields != [] {
      var init, last := fields[..|fields| - 1], fields[|fields| - 1];
      FieldsReadBack(init);
      assert LegibleField(last);
      if last.Ignored? {
        assert ItemsOf(fields) == ItemsOf(init);
      } else {
        FieldReadsBack(last);
        var items := ItemsOf(fields);
        assert items[..|items| - 1] == ItemsOf(init) && items[|items| - 1] == ItemOf(last);
      }
    }
  }

  predicate LegibleListItem(item: Text) {
    LegibleItem(item, ", ") && Clear(Plains(" ") + item, Plains(" FROM ["))
  }

  lemma StarReadsBack()
    ensures LegibleListItem(Plains("*")) && ReadFields([Plains("*")]) == [Selected(Plains("*"), [])]
  {
    var star := Plains("*");
    WordIsLegible("*", ", ");
    WordClear("*", "", " FROM [", 1);
    assert " " + "*" + "" == " *";
    ClearPlains(" *", " FROM [");
    assert Plains(" ") + star == Plains(" *");
    ClearWithoutFirst(star, Plains(" AS ["));
    CutMissing(star, Plains(" AS ["));
    CutMissing([], Plains("]"));
    assert [star][..0] == [];
  }

  /** A word that begins no keyword is a legible entry. */
  lemma WordIsLegible(word: string, separator: string)
    requires word != "" && word[0] in "*(" && ' ' !in word && separator != "" && separator[0] !in word
    ensures LegibleItem(Plains(word), separator)
  {
    forall k: Keyword
      ensures Clear(Plains(" ") + Plains(word), Marker(k))
    {
      WordClear(word, "", Opening(k) + " ", 1);
      assert " " + word + "" == " " + word;
      PlainsAppend(" ", word);
      ClearPlains(" " + word, Opening(k) + " ");
    }
    ClearWithoutFirst(Plains(word), Plains(separator));
  }

  /** The list reads back, and is clear of every clause and of the table's name. */
  lemma ListReadsBack(fields: Option<seq<Field>>)
    requires fields.Some? ==> forall k :: 0 <= k < |fields.value| ==> LegibleField(fields.value[k])
    ensures var list := ListPiecesOf(fields);
            && ReadFields(Split(list, Plains(", "))) == AskedList(fields)
            && Unmarked(Plains("SELECT ") + list) && Clear(list, Plains(" FROM ["))
  {
    var items := ListItems(fields);
    ListIsJoined(fields);
    StarReadsBack();
    if fields.Some? {
      FieldsReadBack(fields.value);
      ItemsAreAsked(fields.value);
    }
    assert LegibleList(items);
    assert forall k :: 0 <= k < |items| ==> LegibleListItem(items[k]) && LegibleItem(items[k], ", ");
    SplitJoined(items, ", ");
    ListIsBeforeTable(items);
    forall k: Keyword
      ensures Clear(Plains("SELECT ") + JoinPieces(items, ", "), Marker(k))
    {
      ListIsUnmarked(items, k);
    }
  }

  lemma {:induction false} ItemsAreAsked(fields: seq<Field>)
    ensures |ItemsOf(fields)| == |AskedFields(fields)|
  {
    if fields != [] { ItemsAreAsked(fields[..|fields| - 1]); }
  }

  /** A list whose words hold no space is clear of a keyword when its entries are, with the space before them. */
  lemma SpacedListClear(first: string, glue: string, items: seq<Text>, keyword: string)
    requires keyword != "" && keyword[0] == ' ' && ' ' !in first && ' ' !in glue && items != []
    requires forall k :: 0 <= k < |items| ==> Clear(Plains(" ") + items[k], Plains(keyword))
    ensures Clear(Plains(first + " ") + JoinPieces(items, glue + " "), Plains(keyword))
    ensures Clear(JoinPieces(items, glue + " "), Plains(keyword))
  {
    PlainWord(first, keyword);
    ClearPlains(first, keyword);
    PlainWord(glue, keyword);
    ClearPlains(glue, keyword);
    ClauseClear(first, glue, items, Plains(keyword));
    ClearSuffix(Plains(first + " "), JoinPieces(items, glue + " "), Plains(keyword));
  }

  predicate LegibleList(items: seq<Text>) { forall k :: 0 <= k < |items| ==> LegibleListItem(items[k]) }

  lemma ListIsUnmarked(items: seq<Text>, k: Keyword)
    requires items != [] && LegibleList(items)
    ensures Clear(Plains("SELECT ") + JoinPieces(items, ", "), Marker(k))
  {
    forall i | 0 <= i < |items|
      ensures Clear(Plains(" ") + items[i], Marker(k))
    {
      assert LegibleListItem(items[i]) && LegibleItem(items[i], ", ");
    }
    SpacedListClear("SELECT", ",", items, Opening(k) + " ");
    assert "SELECT" + " " == "SELECT " && "," + " " == ", ";
  }

  lemma ListIsBeforeTable(items: seq<Text>)
    requires items != [] && LegibleList(items)
    ensures Clear(JoinPieces(items, ", "), Plains(" FROM ["))
  {
    var keyword := " FROM [";
    forall i | 0 <= i < |items|
      ensures Clear(Plains(" ") + items[i], Plains(keyword))
    {
      assert LegibleListItem(items[i]);
    }
    SpacedListClear("SELECT", ",", items, keyword);
    assert "," + " " == ", ";
  }

  // ---- Joins ----------------------------------------------------------------------------------------------

  function JoinText(j: Join): Text { Plains(JoinHead(j)) + Inline(j.condition) }

  lemma {:induction false} JoinsFront(joins: seq<Join>)
    requires joins != []
    ensures JoinsPieces(joins) == JoinText(joins[0]) + JoinsPieces(joins[1..])
  {
    var init, last := joins[..|joins| - 1], joins[|joins| - 1];
    if init == [] {
      assert joins[1..] == [] && JoinsPieces(init) == [];
      assert JoinText(joins[0]) + [] == [] + JoinText(last);
    } else {
      JoinsFront(init);
      assert init[1..] == joins[1..][..|joins| - 2];
      AppendAssociates(JoinText(joins[0]), JoinsPieces(init[1..]), JoinText(last));
    }
  }

  /** The text of the joins is empty or begins with one of the two join words. */
  lemma JoinsBegin(joins: seq<Join>)
    requires forall k :: 0 <= k < |joins| ==> LegibleJoin(joins[k])
    ensures JoinsPieces(joins) == [] || BeginsJoin(JoinsPieces(joins))
  {
    if joins != [] {
      var j := joins[0];
      JoinsFront(joins);
      assert LegibleJoin(j);
      JoinBegins(j, JoinsPieces(joins[1..]));
    }
  }

  predicate BeginsJoin(text: Text) { Plains(" INNER JOIN [") <= text || Plains(" LEFT JOIN [") <= text }

  lemma JoinBegins(j: Join, more: Text)
    requires j.kind == "INNER" || j.kind == "LEFT"
    ensures BeginsJoin(JoinText(j) + more)
  {
    var opening := " " + j.kind + " JOIN [";
    assert JoinHead(j) == opening + (j.table + "] ON ");
    PlainsAppend(opening, j.table + "] ON ");
    var rest := Plains(j.table + "] ON ") + Inline(j.condition) + more;
    assert JoinText(j) + more == Plains(opening) + rest;
    assert Plains(opening) <= Plains(opening) + rest;
    if j.kind == "INNER" {
      assert opening == " INNER JOIN [";
    } else {
      assert opening == " LEFT JOIN [";
    }
  }

  lemma NextJoinSkips(condition: Text, more: Text)
    requires Clear(condition, Plains(" INNER JOIN [")) && Clear(condition, Plains(" LEFT JOIN ["))
    requires more == [] || BeginsJoin(more)
    ensures NextJoin(condition + more) == |condition|
  {
    FindSkips(condition, more, Plains(" INNER JOIN ["));
    FindSkips(condition, more, Plains(" LEFT JOIN ["));
  }

  /** A text with two delimiters is cut at both. */
  lemma CutTwice(x: Text, a: Text, name: Text, b: Text, rest: Text)
    requires a != [] && b != [] && Clear(x, a) && Clear(name, b)
    ensures CutAt(x + a + (name + b + rest), a) == Cut(x, Some(name + b + rest))
    ensures CutAt(name + b + rest, b) == Cut(name, Some(rest))
  {
    CutFound(x, a, name + b + rest);
    CutFound(name, b, rest);
  }

  lemma FourPlains(a: string, b: string, c: string, d: string)
    ensures Plains(a + b + c + d) == Plains(a) + Plains(b) + Plains(c) + Plains(d)
  {
    PlainsAppend(a + b + c, d);
    PlainsAppend(a + b, c);
    PlainsAppend(a, b);
  }

  lemma JoinShape(j: Join, more: Text)
    ensures JoinText(j) + more != []
    ensures (JoinText(j) + more)[1..]
            == Plains(j.kind) + Plains(" JOIN [") + (Plains(j.table) + Plains("] ON ") + (Inline(j.condition) + more))
  {
    var names := j.kind + " JOIN [" + j.table + "] ON ";
    assert JoinHead(j) == " " + names;
    PlainsAppend(" ", names);
    FourPlains(j.kind, " JOIN [", j.table, "] ON ");
    assert (JoinText(j) + more)[1..] == Plains(names) + (Inline(j.condition) + more);
  }

  lemma JoinCuts(j: Join, more: Text)
    requires LegibleJoin(j)
    ensures var text, rest := JoinText(j) + more, Inline(j.condition) + more;
            var after := Plains(j.table) + Plains("] ON ") + rest;
            && text != [] && CutAt(text[1..], Plains(" JOIN [")) == Cut(Plains(j.kind), Some(after))
            && CutAt(after, Plains("] ON ")) == Cut(Plains(j.table), Some(rest))
            && |rest| < |text|
  {
    JoinShape(j, more);
    ClearWithoutFirst(Plains(j.kind), Plains(" JOIN ["));
    ClearWithoutFirst(Plains(j.table), Plains("] ON "));
    CutTwice(Plains(j.kind), Plains(" JOIN ["), Plains(j.table), Plains("] ON "), Inline(j.condition) + more);
  }

  lemma OneJoinReads(j: Join, more: Text)
    requires LegibleJoin(j) && (more == [] || BeginsJoin(more))
    ensures ReadJoins(JoinText(j) + more)
            == [Joined(Plains(j.kind), Plains(j.table), Inline(j.condition))] + ReadJoins(more)
  {
    var condition := Inline(j.condition);
    JoinCuts(j, more);
    NextJoinSkips(condition, more);
    assert (condition + more)[..|condition|] == condition && (condition + more)[|condition|..] == more;
  }

  lemma {:induction false} JoinsReadBack(joins: seq<Join>)
    requires forall k :: 0 <= k < |joins| ==> LegibleJoin(joins[k])
    ensures ReadJoins(JoinsPieces(joins)) == AskedJoins(joins)
  {
    if joins != [] {
      JoinsFront(joins);
      JoinsBegin(joins[1..]);
      assert LegibleJoin(joins[0]);
      OneJoinReads(joins[0], JoinsPieces(joins[1..]));
      JoinsReadBack(joins[1..]);
      AskedFront(joins);
    } else {
      NothingJoined();
    }
  }

  lemma AskedFront(joins: seq<Join>)
    requires joins != []
    ensures AskedJoins(joins)
            == [Joined(Plains(joins[0].kind), Plains(joins[0].table), Inline(joins[0].condition))]
               + AskedJoins(joins[1..])
  {
  }

  lemma NothingJoined()
    ensures ReadJoins(JoinsPieces([])) == AskedJoins([])
  {
  }

  lemma {:induction false} JoinsAreClear(joins: seq<Join>, k: Keyword)
    requires forall i :: 0 <= i < |joins| ==> LegibleJoin(joins[i])
    ensures Clear(JoinsPieces(joins), Marker(k))
  {
    if joins != [] {
      var j := joins[|joins| - 1];
      JoinsAreClear(joins[..|joins| - 1], k);
      assert LegibleJoin(j);
      var head := " " + j.kind + " JOIN [" + j.table + "] ON";
      assert JoinHead(j) == head + " ";
      PlainsAppend(head, " ");
      assert JoinText(j) == Plains(head) + (Plains(" ") + Inline(j.condition));
      ClearAppend(Plains(head), Plains(" ") + Inline(j.condition), Marker(k));
      ClearAppend(JoinsPieces(joins[..|joins| - 1]), JoinText(j), Marker(k));
    }
  }

  // ---- The whole statement --------------------------------------------------------------------------------

  function HeadText(list: Text, table: string, joins: seq<Join>): Text {
    Plains("SELECT ") + list + Plains(" FROM [" + table + "]") + JoinsPieces(joins)
  }

  lemma HeadReadsBack(fields: Option<seq<Field>>, table: string, calls: seq<BuilderCall>, orders: seq<Text>)
    requires Legible(fields, table, calls)
    ensures var head := HeadText(ListPiecesOf(fields), table, Joins(calls));
            Unmarked(head)
            && ReadHead(head, ConditionTexts(Filters(calls)), GroupTexts(Groups(calls)), orders, AskedPage(calls))
               == Asked(fields, table, calls).(orders := orders)
  {
    var list, joins := ListPiecesOf(fields), Joins(calls);
    var head := HeadText(list, table, joins);
    ListReadsBack(fields);
    JoinsReadBack(joins);
    forall k: Keyword
      ensures Clear(head, Marker(k))
    {
      JoinsAreClear(joins, k);
      ClearAppend(Plains("SELECT ") + list, Plains(" FROM [" + table + "]"), Marker(k));
      ClearAppend(Plains("SELECT ") + list + Plains(" FROM [" + table + "]"), JoinsPieces(joins), Marker(k));
    }
    HeadCuts(list, table, JoinsPieces(joins));
  }

  lemma HeadCuts(list: Text, table: string, joins: Text)
    requires Clear(list, Plains(" FROM [")) && ']' !in table
    ensures var head := Plains("SELECT ") + list + Plains(" FROM [" + table + "]") + joins;
            var listed := TextAfter(head, "SELECT ");
            var named := TextAfter(listed, " FROM [");
            && TextBefore(listed, " FROM [") == list && TextBefore(named, "]") == Plains(table)
            && TextAfter(named, "]") == joins
  {
    var head := Plains("SELECT ") + list + Plains(" FROM [" + table + "]") + joins;
    var listed := list + Plains(" FROM [") + (Plains(table) + Plains("]") + joins);
    FourPlains(" FROM [", table, "]", "");
    assert " FROM [" + table + "]" + "" == " FROM [" + table + "]";
    assert head == [] + Plains("SELECT ") + listed;
    CutFound([], Plains("SELECT "), listed);
    ClearWithoutFirst(Plains(table), Plains("]"));
    CutTwice(list, Plains(" FROM ["), Plains(table), Plains("]"), joins);
  }

  lemma WhereIsClause(wheres: seq<Option<seq<Chunk>>>)
    ensures WherePieces(wheres) == Clause(Marker(Filtering), ListOf(Filtering, ConditionTexts(wheres)))
  {
    ConditionParts(wheres);
    MarkersAreWords();
    assert " AND" + " " == " AND ";
  }

  lemma FilteredIsClause(keyword: string, parts: seq<Part>)
    ensures FilteredPieces(keyword, parts) == Clause(Plains(keyword), Listed(NonEmpty(PartsPieces(parts)), ", "))
  {
  }

  lemma GroupIsClause(groups: seq<GroupBy>)
    ensures FilteredPieces(" GROUP BY ", GroupParts(groups))
            == Clause(Marker(Grouping), ListOf(Grouping, GroupTexts(groups)))
  {
    FilteredIsClause(" GROUP BY ", GroupParts(groups));
    GroupItems(groups);
    MarkersAreWords();
    assert "," + " " == ", ";
  }

  lemma OrderIsClause(orders: seq<Option<seq<Chunk>>>)
    ensures FilteredPieces(" ORDER BY ", OrderParts(orders))
            == Clause(Marker(Ordering), ListOf(Ordering, OrderTexts(orders)))
  {
    FilteredIsClause(" ORDER BY ", OrderParts(orders));
    OrderItems(orders);
    MarkersAreWords();
    assert "," + " " == ", ";
  }

  function BuiltPage(s: Select): Option<(int, int)> {
    if s.limit.None? then None else Some((if s.offset.Some? then s.offset.value else 0, s.limit.value))
  }

  /** A builder that pages without an order or a group orders by nothing in particular. */
  predicate Unordered(s: Select) { s.limit.Some? && s.orders == [] && s.groupBys == [] }

  lemma LimitShape(s: Select)
    ensures Plains(LimitText(s))
            == Plains(if Unordered(s) then " ORDER BY (SELECT NULL)" else "")
               + Clause(Plains(" OFFSET "), PageText(BuiltPage(s)))
  {
    if s.limit.Some? {
      var order := if Unordered(s) then " ORDER BY (SELECT NULL)" else "";
      var start, size := Numeral(BuiltPage(s).value.0), Numeral(s.limit.value);
      assert LimitText(s) == order + (" OFFSET " + start + " ROWS FETCH NEXT " + (size + " ROWS ONLY"));
      PlainsAppend(order, " OFFSET " + start + " ROWS FETCH NEXT " + (size + " ROWS ONLY"));
      FourPlains(" OFFSET ", start, " ROWS FETCH NEXT ", size + " ROWS ONLY");
      PlainsAppend(size, " ROWS ONLY");
      PageShape(Plains(" OFFSET "), Plains(start), Plains(" ROWS FETCH NEXT "), Plains(size) + Plains(" ROWS ONLY"));
    } else {
      assert LimitText(s) == "" && Plains("") + [] == Plains("");
    }
  }

  lemma PageShape(a: Text, b: Text, c: Text, d: Text)
    ensures a + b + c + d == a + (b + c + d)
  {
  }

  function BuiltOrders(s: Select): seq<Text> {
    if Unordered(s) then [Plains("(SELECT NULL)")] else OrderTexts(s.orders)
  }

  lemma OrderAndPage(s: Select)
    ensures FilteredPieces(" ORDER BY ", OrderParts(s.orders)) + Plains(LimitText(s))
            == Clause(Marker(Ordering), ListOf(Ordering, BuiltOrders(s)))
               + Clause(Plains(" OFFSET "), PageText(BuiltPage(s)))
  {
    var page := Clause(Plains(" OFFSET "), PageText(BuiltPage(s)));
    OrderIsClause(s.orders);
    LimitShape(s);
    if Unordered(s) {
      assert OrderTexts(s.orders) == [];
      PlainsAppend(" ORDER BY ", "(SELECT NULL)");
      MarkersAreWords();
      assert " ORDER BY " + "(SELECT NULL)" == " ORDER BY (SELECT NULL)";
      assert [] + Plains(LimitText(s)) == Plains(LimitText(s));
    } else {
      assert Plains("") + page == page;
    }
  }

  lemma Reassociate(select: Text, list: Text, from: Text, joins: Text, where: Text, groups: Text, orders: Text,
      limit: Text, order: Text, page: Text)
    requires orders + limit == order + page
    ensures select + list + (from + joins + where + groups + orders + limit)
            == select + list + from + joins + where + groups + order + page
  {
    var head := select + list;
    assert head + (from + joins + where + groups + orders + limit)
        == head + from + joins + where + groups + (orders + limit);
    assert head + from + joins + where + groups + (order + page)
        == head + from + joins + where + groups + order + page;
  }

  /** A statement is its head, its clauses and its page. */
  lemma StatementShape(s: Select)
    ensures SelectPieces(s)
            == Clauses(HeadText(ListPiecesOf(s.fields), s.table, s.joins), ConditionTexts(s.wheres),
                   GroupTexts(s.groupBys), BuiltOrders(s))
               + Clause(Plains(" OFFSET "), PageText(BuiltPage(s)))
  {
    WhereIsClause(s.wheres);
    GroupIsClause(s.groupBys);
    OrderAndPage(s);
    Reassociate(Plains("SELECT "), ListPiecesOf(s.fields), Plains(" FROM [" + s.table + "]"), JoinsPieces(s.joins),
      WherePieces(s.wheres), FilteredPieces(" GROUP BY ", GroupParts(s.groupBys)),
      FilteredPieces(" ORDER BY ", OrderParts(s.orders)), Plains(LimitText(s)),
      Clause(Marker(Ordering), ListOf(Ordering, BuiltOrders(s))), Clause(Plains(" OFFSET "), PageText(BuiltPage(s))));
  }

  /** The order in place of none begins no keyword. */
  lemma NullOrderIsClear(keyword: string)
    requires |keyword| > 1 && keyword[0] == ' ' && keyword[1] in "WGO"
    ensures ClearChars(" (SELECT NULL)", keyword)
  {
    WordClear("NULL)", "", keyword, 1);
    assert " " + "NULL)" + "" == " NULL)";
    WordClear("(SELECT", " NULL)", keyword, 1);
    assert " " + "(SELECT" + " NULL)" == " (SELECT NULL)";
  }

  lemma NullOrderIsLegible()
    ensures LegibleItem(Plains("(SELECT NULL)"), ", ")
  {
    PlainsAppend(" ", "(SELECT NULL)");
    assert " " + "(SELECT NULL)" == " (SELECT NULL)";
    forall k: Keyword
      ensures Clear(Plains(" ") + Plains("(SELECT NULL)"), Marker(k))
    {
      NullOrderIsClear(Opening(k) + " ");
      ClearPlains(" (SELECT NULL)", Opening(k) + " ");
    }
    ClearWithoutFirst(Plains("(SELECT NULL)"), Plains(", "));
  }

  lemma AskedOrdersAreLegible(fields: Option<seq<Field>>, table: string, calls: seq<BuilderCall>)
    requires Legible(fields, table, calls)
    ensures LegibleItems(AskedOrders(calls), ", ")
  {
    NullOrderIsLegible();
  }

  /** The text of the asked clauses behind a head. */
  function AskedText(head: Text, calls: seq<BuilderCall>): Text {
    Clauses(head, ConditionTexts(Filters(calls)), GroupTexts(Groups(calls)), AskedOrders(calls))
    + Clause(Plains(" OFFSET "), PageText(AskedPage(calls)))
  }

  lemma ChainShape(fields: Option<seq<Field>>, table: string, calls: seq<BuilderCall>)
    ensures SelectPieces(Built(fields, table, calls))
            == AskedText(HeadText(ListPiecesOf(fields), table, Joins(calls)), calls)
  {
    var s := Built(fields, table, calls);
    ChainCollects(fields, table, calls);
    StatementShape(s);
    assert BuiltOrders(s) == AskedOrders(calls) && BuiltPage(s) == AskedPage(calls);
  }

  lemma AskedTextReads(head: Text, calls: seq<BuilderCall>)
    requires Unmarked(head) && LegibleItems(AskedOrders(calls), ", ")
    requires LegibleItems(ConditionTexts(Filters(calls)), " AND ") && LegibleItems(GroupTexts(Groups(calls)), ", ")
    ensures Read(AskedText(head, calls))
            == ReadHead(head, ConditionTexts(Filters(calls)), GroupTexts(Groups(calls)), AskedOrders(calls),
                   AskedPage(calls))
  {
    ClausesReadBack(head, ConditionTexts(Filters(calls)), GroupTexts(Groups(calls)), AskedOrders(calls),
      AskedPage(calls));
  }

  /** What is read in the statement meant by a chain is what its calls asked for. */
  lemma MeantReadsBack(fields: Option<seq<Field>>, table: string, calls: seq<BuilderCall>)
    requires Legible(fields, table, calls)
    ensures Read(SelectPieces(Built(fields, table, calls))) == Asked(fields, table, calls)
  {
    ChainShape(fields, table, calls);
    AskedOrdersAreLegible(fields, table, calls);
    HeadReadsBack(fields, table, calls, AskedOrders(calls));
    AskedTextReads(HeadText(ListPiecesOf(fields), table, Joins(calls)), calls);
  }

  /**
   The sent statement with its parameters put back in reads as the columns, joins, conditions, groups, orders and
   page the chain of calls asked for, in the order of the calls.
   */
  lemma ChainReadsBack(fields: Option<seq<Field>>, table: string, calls: seq<BuilderCall>)
    requires ParameterFree(fields) && Legible(fields, table, calls)
    ensures var s := Built(fields, table, calls);
            && RefsWithin(SelectTokens(s), |Values(BodyPieces(s))|)
            && Read(Substitute(SelectTokens(s), Values(BodyPieces(s)))) == Asked(fields, table, calls)
  {
    ChainCollects(fields, table, calls);
    SelectMeaning(Built(fields, table, calls));
    MeantReadsBack(fields, table, calls);
  }

  // ---- UPDATE and DELETE ----------------------------------------------------------------------------------

  datatype Setting = Setting(column: Text, value: Text)

  datatype Changing = Changing(table: Text, settings: seq<Setting>, condition: Option<Text>)

  function ReadSetting(text: Text): Setting {
    Setting(TextBefore(TextAfter(text, "["), "] = "), TextAfter(text, "] = "))
  }

  function ReadSettings(items: seq<Text>): seq<Setting> {
    if items == [] then [] else ReadSettings(items[..|items| - 1]) + [ReadSetting(items[|items| - 1])]
  }

  function ReadUpdate(text: Text): Changing {
    var named := TextAfter(text, "UPDATE [");
    var cut := CutAt(TextAfter(named, "] SET "), Plains(" WHERE "));
    Changing(TextBefore(named, "] SET "), ReadSettings(Split(cut.before, Plains(", "))), cut.after)
  }

  function ReadDelete(text: Text): Changing {
    var named := TextAfter(text, "DELETE FROM [");
    Changing(TextBefore(named, "]"), [], CutAt(TextAfter(named, "]"), Plains(" WHERE ")).after)
  }

  /** The assignments that have a value, in order. */
  function AskedSettings(assignments: seq<Assignment>): seq<Setting> {
    if assignments == [] then []
    else
      var last := assignments[|assignments| - 1];
      AskedSettings(assignments[..|assignments| - 1])
      + if last.value.None? then [] else [Setting(Plains(last.column), [Bound(last.value.value)])]
  }

  function AskedCondition(condition: Option<seq<Chunk>>): Option<Text> {
    match condition case None => None case Some(chunks) => Some(Inline(chunks))
  }

  /** The column holds no bracket or separator, and no keyword. */
  predicate LegibleAssignment(a: Assignment) {
    && ']' !in a.column && ',' !in a.column && Clear(Plains(" [" + a.column + "] ="), Plains(" WHERE "))
  }

  lemma SettingReadsBack(a: Assignment)
    requires a.value.Some? && LegibleAssignment(a)
    ensures ReadSetting(SetPiece(a)) == Setting(Plains(a.column), [Bound(a.value.value)])
  {
    var bound := [Bound(a.value.value)];
    FourPlains("[", a.column, "] = ", "");
    assert SetHead(a) == "[" + a.column + "] = " + "";
    assert Plains("") == [];
    var rest := Plains(a.column) + Plains("] = ") + bound;
    assert SetPiece(a) == [] + Plains("[") + rest;
    CutFound([], Plains("["), rest);
    ClearWithoutFirst(Plains(a.column), Plains("] = "));
    CutFound(Plains(a.column), Plains("] = "), bound);
    ClearWithoutFirst(Plains("[" + a.column), Plains("] = "));
    PlainsAppend("[", a.column);
    assert SetPiece(a) == Plains("[" + a.column) + Plains("] = ") + bound;
    CutFound(Plains("[" + a.column), Plains("] = "), bound);
  }

  /** A space and a value begin no keyword of at least two characters. */
  lemma ValueIsClear(v: Value, keyword: string)
    requires |keyword| >= 2 && keyword[0] == ' '
    ensures Clear(Plains(" ") + [Bound(v)], Plains(keyword))
  {
    var text := Plains(" ") + [Bound(v)];
    assert text[0] == Plain(' ') && text[1] == Bound(v) && Plains(keyword)[1] == Plain(keyword[1]);
    forall i | 0 <= i < |text|
      ensures !(Plains(keyword) <= text[i..]) && !(text[i..] <= Plains(keyword))
    {
      if i == 0 { assert text[0..] == text; } else { assert text[1..] == [Bound(v)]; }
    }
  }

  lemma SettingIsLegible(a: Assignment)
    requires a.value.Some? && LegibleAssignment(a)
    ensures Clear(SetPiece(a), Plains(", ")) && Clear(Plains(" ") + SetPiece(a), Plains(" WHERE "))
  {
    var bound := [Bound(a.value.value)];
    assert SetHead(a) == "[" + a.column + "] = ";
    ClearWithoutFirst(SetPiece(a), Plains(", "));
    PlainsAppend(" ", SetHead(a));
    PlainsAppend(" [" + a.column + "] =", " ");
    assert " " + SetHead(a) == " [" + a.column + "] =" + " ";
    assert Plains(" ") + SetPiece(a) == Plains(" [" + a.column + "] =") + (Plains(" ") + bound);
    ValueIsClear(a.value.value, " WHERE ");
    ClearAppend(Plains(" [" + a.column + "] ="), Plains(" ") + bound, Plains(" WHERE "));
  }

  predicate LegibleSetting(item: Text) { Clear(item, Plains(", ")) && Clear(Plains(" ") + item, Plains(" WHERE ")) }

  lemma {:induction false} SettingsReadBack(assignments: seq<Assignment>)
    requires forall k :: 0 <= k < |assignments| ==> LegibleAssignment(assignments[k])
    ensures ReadSettings(SetPieces(assignments)) == AskedSettings(assignments)
    ensures forall k :: 0 <= k < |SetPieces(assignments)| ==> LegibleSetting(SetPieces(assignments)[k])
  {
    if assignments != [] {
      var init, last := assignments[..|assignments| - 1], assignments[|assignments| - 1];
      SettingsReadBack(init);
      assert LegibleAssignment(last);
      if last.value.None? {
        assert SetPieces(assignments) == SetPieces(init);
      } else {
        SettingReadsBack(last);
        SettingIsLegible(last);
        var items := SetPieces(assignments);
        assert items[..|items| - 1] == SetPieces(init) && items[|items| - 1] == SetPiece(last);
      }
    }
  }

  lemma ConditionIsClause(condition: Option<seq<Chunk>>)
    ensures ConditionPieces(condition) == Clause(Plains(" WHERE "), AskedCondition(condition))
  {
  }

  predicate LegibleSettings(items: seq<Text>) { forall k :: 0 <= k < |items| ==> LegibleSetting(items[k]) }

  lemma SettingsSplit(items: seq<Text>)
    requires items != [] && LegibleSettings(items)
    ensures Split(JoinPieces(items, ", "), Plains(", ")) == items
  {
    forall k | 0 <= k < |items|
      ensures Clear(items[k], Plains(", "))
    {
      assert LegibleSetting(items[k]);
    }
    SplitJoined(items, ", ");
  }

  lemma SettingsAreClear(items: seq<Text>)
    requires items != [] && LegibleSettings(items)
    ensures Clear(JoinPieces(items, ", "), Plains(" WHERE "))
  {
    var keyword := " WHERE ";
    forall k | 0 <= k < |items|
      ensures Clear(Plains(" ") + items[k], Plains(keyword))
    {
      assert LegibleSetting(items[k]);
    }
    SpacedListClear("SET", ",", items, keyword);
    assert "," + " " == ", ";
  }

  lemma SettingsCut(items: seq<Text>, condition: Option<Text>)
    requires items != [] && LegibleSettings(items)
    ensures CutAt(JoinPieces(items, ", ") + Clause(Plains(" WHERE "), condition), Plains(" WHERE "))
            == Cut(JoinPieces(items, ", "), condition)
  {
    SettingsAreClear(items);
    CutClause(JoinPieces(items, ", "), Plains(" WHERE "), condition);
  }

  lemma UpdateCuts(table: string, rest: Text)
    requires ']' !in table
    ensures var named := TextAfter(Plains(UpdateHead(table)) + rest, "UPDATE [");
            TextBefore(named, "] SET ") == Plains(table) && TextAfter(named, "] SET ") == rest
  {
    FourPlains("UPDATE [", table, "] SET ", "");
    assert UpdateHead(table) == "UPDATE [" + table + "] SET " + "";
    assert Plains("") == [];
    var named := Plains(table) + Plains("] SET ") + rest;
    assert Plains(UpdateHead(table)) + rest == [] + Plains("UPDATE [") + named;
    ClearWithoutFirst(Plains(table), Plains("] SET "));
    CutTwice([], Plains("UPDATE ["), Plains(table), Plains("] SET "), rest);
  }

  /** A sent update with its parameters put back in reads as the assignments that have a value, and the condition. */
  lemma UpdateReadsBack(table: string, assignments: seq<Assignment>, condition: Option<seq<Chunk>>)
    requires ']' !in table && forall k :: 0 <= k < |assignments| ==> LegibleAssignment(assignments[k])
    requires exists a :: a in assignments && a.value.Some?
    ensures var pieces := UpdatePieces(table, assignments, condition);
            && RefsWithin(Numbered(pieces, 0), |Values(pieces)|)
            && ReadUpdate(Substitute(Numbered(pieces, 0), Values(pieces)))
               == Changing(Plains(table), AskedSettings(assignments), AskedCondition(condition))
  {
    var pieces, items := UpdatePieces(table, assignments, condition), SetPieces(assignments);
    StatementMeaning(pieces);
    NothingSet(assignments);
    SettingsReadBack(assignments);
    ConditionIsClause(condition);
    assert LegibleSettings(items);
    SettingsSplit(items);
    SettingsCut(items, AskedCondition(condition));
    var rest := JoinPieces(items, ", ") + ConditionPieces(condition);
    AppendAssociates(Plains(UpdateHead(table)), JoinPieces(items, ", "), ConditionPieces(condition));
    UpdateCuts(table, rest);
  }

  lemma DeleteCuts(table: string, rest: Text)
    requires ']' !in table
    ensures var named := TextAfter(Plains("DELETE FROM [" + table + "]") + rest, "DELETE FROM [");
            TextBefore(named, "]") == Plains(table) && TextAfter(named, "]") == rest
  {
    FourPlains("DELETE FROM [", table, "]", "");
    assert "DELETE FROM [" + table + "]" + "" == "DELETE FROM [" + table + "]" && Plains("") == [];
    var named := Plains(table) + Plains("]") + rest;
    assert Plains("DELETE FROM [" + table + "]") + rest == [] + Plains("DELETE FROM [") + named;
    ClearWithoutFirst(Plains(table), Plains("]"));
    CutTwice([], Plains("DELETE FROM ["), Plains(table), Plains("]"), rest);
  }

  /** A sent delete with its parameters put back in reads as its table and its condition. */
  lemma DeleteReadsBack(table: string, condition: Option<seq<Chunk>>)
    requires ']' !in table
    ensures var pieces := DeletePieces(table, condition);
            && RefsWithin(Numbered(pieces, 0), |Values(pieces)|)
            && ReadDelete(Substitute(Numbered(pieces, 0), Values(pieces)))
               == Changing(Plains(table), [], AskedCondition(condition))
  {
    StatementMeaning(DeletePieces(table, condition));
    ConditionIsClause(condition);
    DeleteCuts(table, ConditionPieces(condition));
    CutClause([], Plains(" WHERE "), AskedCondition(condition));
    assert [] + ConditionPieces(condition) == ConditionPieces(condition);
  }

  // ---- Columns, value lists and comparisons ---------------------------------------------------------------

  /** A column as its table, if any, and its name. */
  function ReadColumn(text: Text): (Text, Text) {
    var cut := CutAt(TextAfter(text, "["), Plains("].["));
    if cut.after.Some? then (cut.before, TextBefore(cut.after.value, "]")) else ([], TextBefore(cut.before, "]"))
  }

  lemma QualifiedReadsBack(table: string, name: string)
    requires ']' !in table && ']' !in name
    ensures ReadColumn(Plains("[" + table + "].[" + name + "]")) == (Plains(table), Plains(name))
  {
    var close := Plains(name) + Plains("]");
    var rest := Plains(table) + Plains("].[") + close;
    PlainsAppend("[" + table + "].[" + name, "]");
    FourPlains("[", table, "].[", name);
    assert Plains("[" + table + "].[" + name + "]") == [] + Plains("[") + rest;
    CutFound([], Plains("["), rest);
    ClearWithoutFirst(Plains(table), Plains("].["));
    CutFound(Plains(table), Plains("].["), close);
    BracketReadsBack(name);
  }

  lemma UnqualifiedReadsBack(name: string)
    requires ']' !in name
    ensures ReadColumn(Plains("[" + name + "]")) == ([], Plains(name))
  {
    var close := Plains(name) + Plains("]");
    FourPlains("[", name, "]", "");
    assert "[" + name + "]" == "[" + name + "]" + "" && Plains("") == [];
    assert Plains("[" + name + "]") == [] + Plains("[") + close;
    CutFound([], Plains("["), close);
    NameIsWhole(name);
    BracketReadsBack(name);
  }

  lemma ColumnReadsBack(table: string, name: string)
    requires ']' !in table && ']' !in name
    ensures ReadColumn(InlineOne(Column(table, name))) == (Plains(table), Plains(name))
  {
    if table == "" {
      UnqualifiedReadsBack(name);
      assert Plains("") == [];
    } else {
      QualifiedReadsBack(table, name);
    }
  }

  /** A bracketed name without a closing bracket of its own is followed by no second name. */
  lemma NameIsWhole(name: string)
    requires ']' !in name
    ensures Find(Plains(name) + Plains("]"), Plains("].[")) == |name| + 1
    ensures CutAt(Plains(name) + Plains("]"), Plains("].[")) == Cut(Plains(name) + Plains("]"), None)
  {
    var bracket := Plains("]");
    ClearWithoutFirst(Plains(name), Plains("].["));
    FindSkips(Plains(name), bracket, Plains("].["));
    assert bracket[1..] == [] && Find(bracket, Plains("].[")) == 1;
  }

  /** The entries between the parentheses of a value list. */
  function ReadValues(text: Text): seq<Text>
    requires |text| >= 2
  {
    Split(text[1..|text| - 1], Plains(", "))
  }

  /** Each value of a nonempty list is an entry of its own, in order. */
  lemma ValuesReadBack(values: seq<Value>)
    requires values != []
    ensures var text := InlineOne(ValueList(values));
            && |text| >= 2 && text[0] == Plain('(') && text[|text| - 1] == Plain(')')
            && |ReadValues(text)| == |values|
            && forall k :: 0 <= k < |values| ==> ReadValues(text)[k] == [Bound(values[k])]
  {
    var items := ItemPieces(values);
    ItemsAre(values);
    forall k | 0 <= k < |items|
      ensures Clear(items[k], Plains(", "))
    {
      ClearWithoutFirst(items[k], Plains(", "));
    }
    SplitJoined(items, ", ");
    var text := InlineOne(ValueList(values));
    assert text == Plains("(") + ListPieces(values) + Plains(")");
    assert text[1..|text| - 1] == ListPieces(values);
  }

  lemma {:induction false} ItemsAre(values: seq<Value>)
    ensures |ItemPieces(values)| == |values|
    ensures forall k :: 0 <= k < |values| ==> ItemPieces(values)[k] == [Bound(values[k])]
  {
    if values != [] { ItemsAre(values[..|values| - 1]); }
  }

  /** A comparison of a column whose name holds no space with a value is legible. */
  lemma ComparisonIsLegible(name: string, v: Value)
    requires ' ' !in name
    ensures LegibleItem(Inline([Column("", name), Raw([" = "]), Param(v)]), " AND ")
  {
    var word, item := "[" + name + "]", Inline([Column("", name), Raw([" = "]), Param(v)]);
    ComparisonText(name, v);
    assert item == Plains(word + " =") + (Plains(" ") + [Bound(v)]);
    WordClear("=", "", " AND ", 1);
    assert " " + "=" + "" == " =";
    SpacelessClear(word, " =", " AND ");
    ClearPlains(word + " =", " AND ");
    ValueIsClear(v, " AND ");
    ClearAppend(Plains(word + " ="), Plains(" ") + [Bound(v)], Plains(" AND "));
    forall k: Keyword
      ensures Clear(Plains(" ") + item, Marker(k))
    {
      var keyword := Opening(k) + " ";
      WordClear("=", "", keyword, 1);
      WordClear(word, " =", keyword, 1);
      ClearPlains(" " + word + " =", keyword);
      ValueIsClear(v, keyword);
      PlainsAppend(" ", word + " =");
      assert " " + (word + " =") == " " + word + " =";
      assert Plains(" ") + item == Plains(" " + word + " =") + (Plains(" ") + [Bound(v)]);
      ClearAppend(Plains(" " + word + " ="), Plains(" ") + [Bound(v)], Marker(k));
    }
  }

  lemma ComparisonText(name: string, v: Value)
    ensures Inline([Column("", name), Raw([" = "]), Param(v)])
            == Plains("[" + name + "]" + " =") + (Plains(" ") + [Bound(v)])
  {
    var column, raw, value := Column("", name), Raw([" = "]), Param(v);
    InlineAppend([column], [raw, value]);
    InlineAppend([raw], [value]);
    assert [column] + [raw, value] == [column, raw, value] && [raw] + [value] == [raw, value];
    InlineSingle(column);
    InlineSingle(raw);
    InlineSingle(value);
    PlainsAppend("[" + name + "]", " =");
    PlainsAppend(" =", " ");
    assert " =" + " " == " = ";
    AppendAssociates(Plains("[" + name + "]"), Plains(" ="), Plains(" ") + [Bound(v)]);
  }
}
