/**
 The SQL serializer of the query-builder shim: chunk trees become statement text
 plus one shared parameter list. Text is a sequence of tokens, either a
 character or a placeholder `@p<index>`.
 */
module SqlSerializer {
  import opened Common

  datatype Value = Null | Text(s: string) | Number(r: real) | Boolean(b: bool) | Date(ticks: int)

  datatype Token = Ch(c: char) | Ref(index: nat)

  /** Statement text with the parameter values written inline: the meaning of a statement. */
  datatype Piece = Plain(c: char) | Bound(v: Value)

  /** One constructor per branch of the serializer; `Opaque` is any object that matches none. */
  datatype Chunk =
    | Undefined
    | NullLiteral
    | ValueList(values: seq<Value>)
    | Raw(value: seq<string>)
    | Column(table: string, name: string)
    | Nested(queryChunks: seq<Chunk>)
    | Param(v: Value)
    | Opaque

  // ---- The reference rendering ---------------------------------------------------

  function Plains(s: string): seq<Piece> {
    seq(|s|, i requires 0 <= i < |s| => Plain(s[i]))
  }

  function Chars(s: string): seq<Token> {
    seq(|s|, i requires 0 <= i < |s| => Ch(s[i]))
  }

  function ColumnText(table: string, name: string): string {
    if table != "" then "[" + table + "].[" + name + "]" else "[" + name + "]"
  }

  function RawText(value: seq<string>): string {
    if value == [] then "" else value[0]
  }

  function ItemPieces(values: seq<Value>): seq<seq<Piece>> {
    if values == [] then [] else ItemPieces(values[..|values| - 1]) + [[Bound(values[|values| - 1])]]
  }

  function ListPieces(values: seq<Value>): seq<Piece> {
    JoinPieces(ItemPieces(values), ", ")
  }

  function InlineOne(chunk: Chunk): seq<Piece>
    decreases chunk, 1
  {
    match chunk
    case Undefined => []
    case NullLiteral => [Bound(Null)]
    case ValueList(values) => Plains("(") + ListPieces(values) + Plains(")")
    case Raw(value) => Plains(RawText(value))
    case Column(table, name) => Plains(ColumnText(table, name))
    case Nested(queryChunks) => Inline(queryChunks)
    case Param(v) => [Bound(v)]
    case Opaque => []
  }

  function Inline(chunks: seq<Chunk>): seq<Piece>
    decreases chunks, 0
  {
    if chunks == [] then [] else InlineOne(chunks[0]) + Inline(chunks[1..])
  }

  /** The values of a rendering, in order. */
  function Values(pieces: seq<Piece>): seq<Value> {
    if pieces == [] then []
    else (if pieces[0].Bound? then [pieces[0].v] else []) + Values(pieces[1..])
  }

  /** A rendering with its values replaced by consecutive placeholders after `used` earlier ones. */
  function Numbered(pieces: seq<Piece>, used: nat): seq<Token> {
    if pieces == [] then []
    else if pieces[0].Bound? then [Ref(used + 1)] + Numbered(pieces[1..], used + 1)
    else [Ch(pieces[0].c)] + Numbered(pieces[1..], used)
  }

  function JoinPieces(parts: seq<seq<Piece>>, separator: string): seq<Piece> {
    if parts == [] then []
    else if |parts| == 1 then parts[0]
    else parts[0] + Plains(separator) + JoinPieces(parts[1..], separator)
  }

  function JoinTokens(parts: seq<seq<Token>>, separator: string): seq<Token> {
    if parts == [] then []
    else if |parts| == 1 then parts[0]
    else parts[0] + Chars(separator) + JoinTokens(parts[1..], separator)
  }

  lemma {:induction false} NumberedAppend(a: seq<Piece>, b: seq<Piece>, used: nat)
    ensures Values(a + b) == Values(a) + Values(b)
    ensures Numbered(a + b, used) == Numbered(a, used) + Numbered(b, used + |Values(a)|)
  {
    if a == [] {
      assert a + b == b;
    } else {
      assert (a + b)[1..] == a[1..] + b;
      NumberedAppend(a[1..], b, if a[0].Bound? then used + 1 else used);
    }
  }

  lemma {:induction false} NumberedPlains(s: string, used: nat)
    ensures Values(Plains(s)) == []
    ensures Numbered(Plains(s), used) == Chars(s)
  {
    if s != "" {
      assert Plains(s)[1..] == Plains(s[1..]);
      assert Chars(s) == [Ch(s[0])] + Chars(s[1..]);
      NumberedPlains(s[1..], used);
    }
  }

  lemma {:induction false} InlineAppend(a: seq<Chunk>, b: seq<Chunk>)
    ensures Inline(a + b) == Inline(a) + Inline(b)
  {
    if a == [] {
      assert a + b == b;
    } else {
      assert (a + b)[1..] == a[1..] + b;
      InlineAppend(a[1..], b);
    }
  }

  // ---- Serializing ------------------------------------------------------------------

  /** The parameter array that every clause of a statement pushes into. */
  class ParamList {
    var items: seq<Value>

    constructor ()
      ensures items == []
    {
      items := [];
    }

    /** Push a value and return its placeholder. */
    method Push(v: Value) returns (placeholder: seq<Token>)
      modifies this
      ensures items == old(items) + [v]
      ensures placeholder == Numbered([Bound(v)], |old(items)|)
    {
      items := items + [v];
      assert [Bound(v)][1..] == [];
      placeholder := [Ref(|items|)];
    }
  }

  /** A value list: every element becomes a placeholder of its own. */
  method SerializeList(values: seq<Value>, params: ParamList) returns (parts: seq<seq<Token>>)
    modifies params
    ensures params.items == old(params.items) + AllValues(ItemPieces(values))
    ensures parts == NumberedParts(ItemPieces(values), |old(params.items)|)
  {
    parts := [];
    ghost var before, pieces: seq<seq<Piece>> := params.items, [];
    var i := 0;
    while i < |values|
      invariant 0 <= i <= |values|
      invariant pieces == ItemPieces(values[..i])
      invariant params.items == before + AllValues(pieces)
      invariant parts == NumberedParts(pieces, |before|)
    {
      var text := params.Push(values[i]);
      parts := parts + [text];
      BoundSingle(values[i]);
      AppendAssociates(before, AllValues(pieces), [values[i]]);
      PartsStep(pieces, [Bound(values[i])], |before|);
      ItemsLast(values, i);
      pieces := pieces + [[Bound(values[i])]];
      i := i + 1;
    }
    assert values[..i] == values;
  }

  lemma ItemsLast(values: seq<Value>, i: nat)
    requires i < |values|
    ensures ItemPieces(values[..i + 1]) == ItemPieces(values[..i]) + [[Bound(values[i])]]
  {
    assert values[..i + 1][..i] == values[..i];
  }

  lemma BoundSingle(v: Value)
    ensures Values([Bound(v)]) == [v]
  {
    assert [Bound(v)][1..] == [];
  }

  /** One chunk of the serializer's loop. */
  method SerializeOne(chunk: Chunk, params: ParamList) returns (text: seq<Token>)
    modifies params
    ensures params.items == old(params.items) + Values(InlineOne(chunk))
    ensures text == Numbered(InlineOne(chunk), |old(params.items)|)
    decreases chunk, 1
  {
    text := [];
    match chunk {
      case Undefined =>
      case NullLiteral =>
        text := params.Push(Null);
      case ValueList(values) =>
        var parts := SerializeList(values, params);
        text := Chars("(") + JoinTokens(parts, ", ") + Chars(")");
        ListNumbered(values, |old(params.items)|);
      case Raw(value) =>
        text := Chars(RawText(value));
        NumberedPlains(RawText(value), |old(params.items)|);
      case Column(table, name) =>
        text := Chars(ColumnText(table, name));
        NumberedPlains(ColumnText(table, name), |old(params.items)|);
      case Nested(queryChunks) =>
        text := SerializeChunks(queryChunks, params);
      case Param(v) =>
        text := params.Push(v);
      case Opaque =>
    }
  }

  method SerializeChunks(chunks: seq<Chunk>, params: ParamList) returns (result: seq<Token>)
    modifies params
    ensures params.items == old(params.items) + Values(Inline(chunks))
    ensures result == Numbered(Inline(chunks), |old(params.items)|)
    decreases chunks, 0
  {
    result := [];
    ghost var before, pieces: seq<Piece> := params.items, [];
    var i := 0;
    while i < |chunks|
      invariant 0 <= i <= |chunks|
      invariant pieces == Inline(chunks[..i])
      invariant params.items == before + Values(pieces)
      invariant result == Numbered(pieces, |before|)
    {
      var text := SerializeOne(chunks[i], params);
      result := result + text;
      NumberedAppend(pieces, InlineOne(chunks[i]), |before|);
      AppendAssociates(before, Values(pieces), Values(InlineOne(chunks[i])));
      InlineLast(chunks, i);
      pieces := pieces + InlineOne(chunks[i]);
      i := i + 1;
    }
    assert chunks[..i] == chunks;
  }

  lemma InlineLast(chunks: seq<Chunk>, i: nat)
    requires i < |chunks|
    ensures Inline(chunks[..i + 1]) == Inline(chunks[..i]) + InlineOne(chunks[i])
  {
    InlineAppend(chunks[..i], [chunks[i]]);
    InlineSingle(chunks[i]);
    assert chunks[..i] + [chunks[i]] == chunks[..i + 1];
  }

  lemma InlineSingle(chunk: Chunk)
    ensures Inline([chunk]) == InlineOne(chunk)
  {
    assert [chunk][1..] == [];
    assert InlineOne(chunk) + [] == InlineOne(chunk);
  }

  lemma ListNumbered(values: seq<Value>, used: nat)
    ensures Values(InlineOne(ValueList(values))) == AllValues(ItemPieces(values))
    ensures Numbered(InlineOne(ValueList(values)), used)
            == Chars("(") + JoinTokens(NumberedParts(ItemPieces(values), used), ", ") + Chars(")")
  {
    JoinNumbered(ItemPieces(values), ", ", used);
    Bracketed("(", ListPieces(values), ")", used);
  }

  lemma Bracketed(open: string, pieces: seq<Piece>, close: string, used: nat)
    ensures Values(Plains(open) + pieces + Plains(close)) == Values(pieces)
    ensures Numbered(Plains(open) + pieces + Plains(close), used) == Chars(open) + Numbered(pieces, used) + Chars(close)
  {
    NumberedAppend(Plains(open) + pieces, Plains(close), used);
    NumberedAppend(Plains(open), pieces, used);
    NumberedPlains(open, used);
    NumberedPlains(close, used + |Values(pieces)|);
  }

  // ---- Meaning ------------------------------------------------------------------------

  predicate RefsWithin(tokens: seq<Token>, count: nat) {
    forall t :: t in tokens && t.Ref? ==> 1 <= t.index <= count
  }

  /** Put `params[i-1]` in place of each `@pi`. */
  function Substitute(tokens: seq<Token>, params: seq<Value>): seq<Piece>
    requires RefsWithin(tokens, |params|)
  {
    if tokens == [] then []
    else
      assert tokens[0] in tokens;
      [if tokens[0].Ref? then Bound(params[tokens[0].index - 1]) else Plain(tokens[0].c)]
      + Substitute(tokens[1..], params)
  }

  function RefsOne(token: Token): seq<nat> {
    if token.Ref? then [token.index] else []
  }

  /** The placeholders of a text, in order. */
  function Refs(tokens: seq<Token>): seq<nat> {
    if tokens == [] then [] else RefsOne(tokens[0]) + Refs(tokens[1..])
  }

  /** from+1, ..., from+n. */
  function Consecutive(from: nat, n: nat): (r: seq<nat>)
    ensures |r| == n
    decreases n
  {
    if n == 0 then [] else [from + 1] + Consecutive(from + 1, n - 1)
  }

  /** Substituting the pushed values gives the text back with its values inline, whatever else the list holds. */
  lemma {:induction false} SubstituteRestores(pieces: seq<Piece>, used: nat, params: seq<Value>)
    requires used + |Values(pieces)| <= |params|
    requires Values(pieces) == params[used..used + |Values(pieces)|]
    ensures RefsWithin(Numbered(pieces, used), |params|)
    ensures Substitute(Numbered(pieces, used), params) == pieces
  {
    if pieces != [] {
      var rest := pieces[1..];
      if pieces[0].Bound? {
        ValuesTail(pieces, used, params);
        SubstituteRestores(rest, used + 1, params);
      } else {
        SubstituteRestores(rest, used, params);
      }
      assert pieces == [pieces[0]] + rest;
      assert Numbered(pieces, used)[1..] == Numbered(rest, if pieces[0].Bound? then used + 1 else used);
    }
  }

  lemma ValuesTail(pieces: seq<Piece>, used: nat, params: seq<Value>)
    requires pieces != [] && pieces[0].Bound?
    requires used + |Values(pieces)| <= |params|
    requires Values(pieces) == params[used..used + |Values(pieces)|]
    ensures params[used] == pieces[0].v
    ensures |Values(pieces)| == 1 + |Values(pieces[1..])|
    ensures Values(pieces[1..]) == params[used + 1..used + 1 + |Values(pieces[1..])|]
  {
    assert Values(pieces) == [pieces[0].v] + Values(pieces[1..]);
    assert Values(pieces)[0] == params[used];
    assert Values(pieces)[1..] == Values(pieces[1..]);
  }

  /** The placeholders are consecutive, each used once and in order. */
  lemma {:induction false} PlaceholdersConsecutive(pieces: seq<Piece>, used: nat)
    ensures Refs(Numbered(pieces, used)) == Consecutive(used, |Values(pieces)|)
  {
    if pieces != [] {
      if pieces[0].Bound? {
        PlaceholdersConsecutive(pieces[1..], used + 1);
      } else {
        PlaceholdersConsecutive(pieces[1..], used);
      }
    }
  }

  /** The same tree with every nested query spliced into its parent. */
  function Spliced(chunks: seq<Chunk>): seq<Chunk> {
    if chunks == [] then []
    else (if chunks[0].Nested? then Spliced(chunks[0].queryChunks) else [chunks[0]]) + Spliced(chunks[1..])
  }

  /** Nesting is irrelevant to text and parameters alike, since both are functions of the rendering. */
  lemma {:induction false} NestingIsIrrelevant(chunks: seq<Chunk>)
    ensures Inline(Spliced(chunks)) == Inline(chunks)
    ensures forall c :: c in Spliced(chunks) ==> !c.Nested?
    decreases chunks
  {
    if chunks != [] {
      var head := if chunks[0].Nested? then Spliced(chunks[0].queryChunks) else [chunks[0]];
      NestingIsIrrelevant(chunks[1..]);
      InlineAppend(head, Spliced(chunks[1..]));
      if chunks[0].Nested? {
        NestingIsIrrelevant(chunks[0].queryChunks);
      } else {
        InlineSingle(chunks[0]);
      }
    }
  }

  // ---- Clauses --------------------------------------------------------------------------

  /** One entry of a clause: a serialized query, fixed text, or nothing. */
  datatype Part = Query(chunks: seq<Chunk>) | Fixed(text: string)

  function PartPieces(part: Part): seq<Piece> {
    match part
    case Query(chunks) => Inline(chunks)
    case Fixed(text) => Plains(text)
  }

  function PartsPieces(parts: seq<Part>): seq<seq<Piece>> {
    if parts == [] then [] else PartsPieces(parts[..|parts| - 1]) + [PartPieces(parts[|parts| - 1])]
  }

  function AllValues(parts: seq<seq<Piece>>): seq<Value> {
    if parts == [] then [] else AllValues(parts[..|parts| - 1]) + Values(parts[|parts| - 1])
  }

  /** The texts of consecutive parts that share one parameter list. */
  function NumberedParts(parts: seq<seq<Piece>>, used: nat): seq<seq<Token>> {
    if parts == [] then []
    else
      var init := parts[..|parts| - 1];
      NumberedParts(init, used) + [Numbered(parts[|parts| - 1], used + |AllValues(init)|)]
  }

  /** JavaScript's `filter(Boolean)` on strings. */
  function NonEmpty<T>(parts: seq<seq<T>>): seq<seq<T>> {
    if parts == [] then []
    else
      var init, last := NonEmpty(parts[..|parts| - 1]), parts[|parts| - 1];
      if last == [] then init else init + [last]
  }

  method SerializePart(part: Part, params: ParamList) returns (text: seq<Token>)
    modifies params
    ensures params.items == old(params.items) + Values(PartPieces(part))
    ensures text == Numbered(PartPieces(part), |old(params.items)|)
  {
    match part {
      case Query(chunks) =>
        text := SerializeChunks(chunks, params);
      case Fixed(t) =>
        text := Chars(t);
        NumberedPlains(t, |params.items|);
    }
  }

  /** The values pushed and the texts written for some pieces, after what was there before. */
  predicate Written(items: seq<Value>, before: seq<Value>, pieces: seq<seq<Piece>>, parts: seq<seq<Token>>) {
    items == before + AllValues(pieces) && parts == NumberedParts(pieces, |before|)
  }

  lemma WrittenValues(items: seq<Value>, before: seq<Value>, all: seq<Value>, last: seq<Value>)
    requires items == before + all
    ensures items + last == before + (all + last) && |items| == |before| + |all|
  {
    AppendAssociates(before, all, last);
  }

  lemma WrittenStep(items: seq<Value>, before: seq<Value>, pieces: seq<seq<Piece>>, parts: seq<seq<Token>>,
          last: seq<Piece>, used: nat)
    requires Written(items, before, pieces, parts) && used == |items|
    ensures Written(items + Values(last), before, pieces + [last], parts + [Numbered(last, used)])
  {
    var all, more := AllValues(pieces), pieces + [last];
    WrittenValues(items, before, all, Values(last));
    PartsStep(pieces, last, |before|);
    assert AllValues(more) == all + Values(last);
    assert NumberedParts(more, |before|) == parts + [Numbered(last, used)];
  }

  method SerializeParts(parts: seq<Part>, params: ParamList) returns (texts: seq<seq<Token>>)
    modifies params
    ensures params.items == old(params.items) + AllValues(PartsPieces(parts))
    ensures texts == NumberedParts(PartsPieces(parts), |old(params.items)|)
  {
    texts := [];
    ghost var before, pieces: seq<seq<Piece>> := params.items, [];
    var i := 0;
    while i < |parts|
      invariant 0 <= i <= |parts|
      invariant pieces == PartsPieces(parts[..i])
      invariant Written(params.items, before, pieces, texts)
    {
      ghost var last := PartPieces(parts[i]);
      WrittenStep(params.items, before, pieces, texts, last, |params.items|);
      var text := SerializePart(parts[i], params);
      PartsLast(parts, i);
      texts := texts + [text];
      pieces := pieces + [last];
      i := i + 1;
    }
    assert parts[..i] == parts;
  }

  lemma PartsLast(parts: seq<Part>, i: nat)
    requires i < |parts|
    ensures PartsPieces(parts[..i + 1]) == PartsPieces(parts[..i]) + [PartPieces(parts[i])]
  {
    assert parts[..i + 1][..i] == parts[..i];
  }

  lemma PartsStep(parts: seq<seq<Piece>>, last: seq<Piece>, used: nat)
    ensures AllValues(parts + [last]) == AllValues(parts) + Values(last)
    ensures NumberedParts(parts + [last], used)
            == NumberedParts(parts, used) + [Numbered(last, used + |AllValues(parts)|)]
  {
    assert (parts + [last])[..|parts|] == parts;
  }

  lemma {:induction false} JoinPiecesLast(parts: seq<seq<Piece>>, last: seq<Piece>, separator: string)
    requires parts != []
    ensures JoinPieces(parts + [last], separator) == JoinPieces(parts, separator) + Plains(separator) + last
  {
    assert (parts + [last])[1..] == parts[1..] + [last];
    if |parts| > 1 {
      JoinPiecesLast(parts[1..], last, separator);
    }
  }

  lemma {:induction false} JoinTokensLast(parts: seq<seq<Token>>, last: seq<Token>, separator: string)
    requires parts != []
    ensures JoinTokens(parts + [last], separator) == JoinTokens(parts, separator) + Chars(separator) + last
  {
    assert (parts + [last])[1..] == parts[1..] + [last];
    if |parts| > 1 {
      JoinTokensLast(parts[1..], last, separator);
    }
  }

  lemma NumberedEmpty(pieces: seq<Piece>, used: nat)
    ensures Numbered(pieces, used) == [] <==> pieces == []
  {
  }

  /** Appending one numbered part to a joined clause. */
  lemma JoinStep(parts: seq<seq<Piece>>, texts: seq<seq<Token>>, last: seq<Piece>, separator: string, used: nat)
    requires parts == [] <==> texts == []
    requires JoinTokens(texts, separator) == Numbered(JoinPieces(parts, separator), used)
    ensures var count := |Values(JoinPieces(parts, separator))|;
            JoinTokens(texts + [Numbered(last, used + count)], separator)
                == Numbered(JoinPieces(parts + [last], separator), used)
    ensures Values(JoinPieces(parts + [last], separator)) == Values(JoinPieces(parts, separator)) + Values(last)
  {
    var joined := JoinPieces(parts, separator);
    var text := Numbered(last, used + |Values(joined)|);
    if parts == [] {
      assert parts + [last] == [last] && texts + [text] == [text];
    } else {
      JoinPiecesLast(parts, last, separator);
      JoinTokensLast(texts, text, separator);
      NumberedAppend(joined, Plains(separator), used);
      NumberedPlains(separator, used + |Values(joined)|);
      NumberedAppend(joined + Plains(separator), last, used);
    }
  }

  /** Joining the texts of a clause is numbering the joined clause. */
  lemma {:induction false} JoinNumbered(parts: seq<seq<Piece>>, separator: string, used: nat)
    ensures JoinTokens(NumberedParts(parts, used), separator) == Numbered(JoinPieces(parts, separator), used)
    ensures Values(JoinPieces(parts, separator)) == AllValues(parts)
    ensures NumberedParts(parts, used) == [] <==> parts == []
  {
    if parts != [] {
      var init, last := parts[..|parts| - 1], parts[|parts| - 1];
      JoinNumbered(init, separator, used);
      JoinStep(init, NumberedParts(init, used), last, separator, used);
      assert init + [last] == parts;
    }
  }

  /** `texts` are the numbered `parts`, of which the nonempty ones together hold `values`. */
  predicate FilteredClause(parts: seq<seq<Piece>>, texts: seq<seq<Token>>, separator: string, used: nat,
          values: seq<Value>) {
    && (NonEmpty(parts) == [] <==> NonEmpty(texts) == [])
    && JoinTokens(NonEmpty(texts), separator) == Numbered(JoinPieces(NonEmpty(parts), separator), used)
    && Values(JoinPieces(NonEmpty(parts), separator)) == values
  }

  /** Dropping empty texts drops no placeholder, so the filtered clause numbers the same way. */
  lemma {:induction false} JoinNonEmptyNumbered(parts: seq<seq<Piece>>, separator: string, used: nat)
    ensures FilteredClause(parts, NumberedParts(parts, used), separator, used, AllValues(parts))
  {
    if parts != [] {
      var init, last := parts[..|parts| - 1], parts[|parts| - 1];
      JoinNonEmptyNumbered(init, separator, used);
      FilteredStep(init, NumberedParts(init, used), last, separator, used, AllValues(init));
      assert init + [last] == parts;
    }
  }

  lemma FilteredStep(parts: seq<seq<Piece>>, texts: seq<seq<Token>>, last: seq<Piece>, separator: string, used: nat,
          values: seq<Value>)
    requires FilteredClause(parts, texts, separator, used, values)
    ensures FilteredClause(parts + [last], texts + [Numbered(last, used + |values|)], separator, used, values
            + Values(last))
  {
    NonEmptyLast(parts, last);
    NonEmptyLast(texts, Numbered(last, used + |values|));
    NonEmptyStep(NonEmpty(parts), NonEmpty(texts), last, separator, used, values);
  }

  lemma NonEmptyStep(kept: seq<seq<Piece>>, texts: seq<seq<Token>>, last: seq<Piece>, separator: string, used: nat,
          values: seq<Value>)
    requires kept == [] <==> texts == []
    requires JoinTokens(texts, separator) == Numbered(JoinPieces(kept, separator), used)
    requires Values(JoinPieces(kept, separator)) == values
    ensures var text := Numbered(last, used + |values|);
            var kept' := if last == [] then kept else kept + [last];
            var texts' := if text == [] then texts else texts + [text];
            && (kept' == [] <==> texts' == [])
            && JoinTokens(texts', separator) == Numbered(JoinPieces(kept', separator), used)
            && Values(JoinPieces(kept', separator)) == values + Values(last)
  {
    NumberedEmpty(last, used + |values|);
    if last != [] {
      JoinStep(kept, texts, last, separator, used);
    } else {
      assert values + Values(last) == values;
    }
  }

  lemma NonEmptyLast<T>(parts: seq<seq<T>>, last: seq<T>)
    ensures NonEmpty(parts + [last]) == if last == [] then NonEmpty(parts) else NonEmpty(parts) + [last]
  {
    assert (parts + [last])[..|parts|] == parts;
  }

  // ---- SELECT ----------------------------------------------------------------------------

  datatype Field =
    | Expression(alias: string, chunks: seq<Chunk>)
    | ColumnField(alias: string, table: string, name: string)
    | Ignored(alias: string)

  datatype Join = Join(kind: string, table: string, condition: seq<Chunk>)

  datatype GroupBy = GroupQuery(chunks: seq<Chunk>) | GroupColumn(name: string) | GroupOther

  /** A decimal numeral, as string interpolation prints an integer. */
  function Numeral(n: int): string
    decreases n < 0, if n < 0 then -n else n
  {
    if n < 0 then "-" + Numeral(-n)
    else if n < 10 then [(n + '0' as int) as char]
    else Numeral(n / 10) + [(n % 10 + '0' as int) as char]
  }

  function WherePart(condition: Option<seq<Chunk>>): Part {
    match condition
    case Some(chunks) => Query(chunks)
    case None => Fixed("1=1")
  }

  function GroupPart(g: GroupBy): Part {
    match g
    case GroupQuery(chunks) => Query(chunks)
    case GroupColumn(name) => if name != "" then Fixed("[" + name + "]") else Fixed("")
    case GroupOther => Fixed("")
  }

  function OrderPart(order: Option<seq<Chunk>>): Part {
    match order
    case Some(chunks) => Query(chunks)
    case None => Fixed("")
  }

  function WhereParts(wheres: seq<Option<seq<Chunk>>>): seq<Part> {
    seq(|wheres|, i requires 0 <= i < |wheres| => WherePart(wheres[i]))
  }

  function GroupParts(groupBys: seq<GroupBy>): seq<Part> {
    seq(|groupBys|, i requires 0 <= i < |groupBys| => GroupPart(groupBys[i]))
  }

  function OrderParts(orders: seq<Option<seq<Chunk>>>): seq<Part> {
    seq(|orders|, i requires 0 <= i < |orders| => OrderPart(orders[i]))
  }

  /** The settings a select builder collects. */
  datatype Select = Select(
    fields: Option<seq<Field>>, table: string, joins: seq<Join>, wheres: seq<Option<seq<Chunk>>>,
    groupBys: seq<GroupBy>, orders: seq<Option<seq<Chunk>>>, limit: Option<int>, offset: Option<int>)

  function JoinHead(j: Join): string { " " + j.kind + " JOIN [" + j.table + "] ON " }

  function JoinsPieces(joins: seq<Join>): seq<Piece> {
    if joins == [] then []
    else
      var j := joins[|joins| - 1];
      JoinsPieces(joins[..|joins| - 1]) + (Plains(JoinHead(j)) + Inline(j.condition))
  }

  function WherePieces(wheres: seq<Option<seq<Chunk>>>): seq<Piece> {
    if wheres == [] then []
    else Plains(" WHERE ") + JoinPieces(PartsPieces(WhereParts(wheres)), " AND ")
  }

  /** A clause that disappears when all its entries are empty: GROUP BY and ORDER BY. */
  function FilteredPieces(keyword: string, parts: seq<Part>): seq<Piece> {
    var kept := NonEmpty(PartsPieces(parts));
    if kept == [] then [] else Plains(keyword) + JoinPieces(kept, ", ")
  }

  function LimitText(s: Select): string {
    match s.limit
    case None => ""
    case Some(n) =>
      (if s.orders == [] && s.groupBys == [] then " ORDER BY (SELECT NULL)" else "")
      + " OFFSET " + Numeral(match s.offset case Some(k) => k case None => 0)
      + " ROWS FETCH NEXT " + Numeral(n) + " ROWS ONLY"
  }

  /** Everything after the select list. */
  function BodyPieces(s: Select): seq<Piece> {
    Plains(" FROM [" + s.table + "]") + JoinsPieces(s.joins) + WherePieces(s.wheres)
    + FilteredPieces(" GROUP BY ", GroupParts(s.groupBys)) + FilteredPieces(" ORDER BY ", OrderParts(s.orders))
    + Plains(LimitText(s))
  }

  function AliasText(f: Field): string { " AS [" + f.alias + "]" }

  /** A selected field as it is meant. */
  function FieldPieces(f: Field): seq<Piece> {
    match f
    case Expression(alias, chunks) => Inline(chunks) + Plains(AliasText(f))
    case ColumnField(alias, table, name) => Plains(ColumnText(table, name) + AliasText(f))
    case Ignored(alias) => []
  }

  function FieldsPieces(fields: seq<Field>): seq<seq<Piece>> {
    if fields == [] then []
    else
      var init, last := FieldsPieces(fields[..|fields| - 1]), fields[|fields| - 1];
      if last.Ignored? then init else init + [FieldPieces(last)]
  }

  /** A selected field as it is written: its parameters are numbered from scratch and thrown away. */
  function FieldsTokens(fields: seq<Field>): seq<seq<Token>> {
    if fields == [] then []
    else
      var init, last := FieldsTokens(fields[..|fields| - 1]), fields[|fields| - 1];
      if last.Ignored? then init else init + [Numbered(FieldPieces(last), 0)]
  }

  function ListPiecesOf(fields: Option<seq<Field>>): seq<Piece> {
    if fields.None? || FieldsPieces(fields.value) == [] then Plains("*")
    else JoinPieces(FieldsPieces(fields.value), ", ")
  }

  function ListTokensOf(fields: Option<seq<Field>>): seq<Token> {
    if fields.None? || FieldsTokens(fields.value) == [] then Chars("*")
    else JoinTokens(FieldsTokens(fields.value), ", ")
  }

  /** The statement as it is meant, every value inline. */
  function SelectPieces(s: Select): seq<Piece> {
    Plains("SELECT ") + ListPiecesOf(s.fields) + BodyPieces(s)
  }

  /** The statement as it is written. */
  function SelectTokens(s: Select): seq<Token> {
    Chars("SELECT ") + ListTokensOf(s.fields) + Numbered(BodyPieces(s), 0)
  }

  method BuildField(f: Field) returns (text: seq<Token>)
    requires !f.Ignored?
    ensures text == Numbered(FieldPieces(f), 0)
  {
    match f {
      case Expression(alias, chunks) =>
        var p := new ParamList();
        text := SerializeChunks(chunks, p);
        text := text + Chars(AliasText(f));
        NumberedAppend(Inline(chunks), Plains(AliasText(f)), 0);
        NumberedPlains(AliasText(f), |Values(Inline(chunks))|);
      case ColumnField(alias, table, name) =>
        text := Chars(ColumnText(table, name) + AliasText(f));
        NumberedPlains(ColumnText(table, name) + AliasText(f), 0);
    }
  }

  method BuildSelectCols(fields: Option<seq<Field>>) returns (cols: seq<Token>)
    ensures cols == ListTokensOf(fields)
  {
    if fields.None? {
      return Chars("*");
    }
    var parts: seq<seq<Token>> := [];
    var i := 0;
    while i < |fields.value|
      invariant 0 <= i <= |fields.value|
      invariant parts == FieldsTokens(fields.value[..i])
    {
      if !fields.value[i].Ignored? {
        var text := BuildField(fields.value[i]);
        parts := parts + [text];
      }
      assert fields.value[..i + 1][..i] == fields.value[..i];
      i := i + 1;
    }
    assert fields.value[..i] == fields.value;
    cols := if |parts| > 0 then JoinTokens(parts, ", ") else Chars("*");
  }

  /** A fluent builder: every call but the last only records. */
  class SelectBuilder {
    var state: Select

    constructor (fields: Option<seq<Field>>, table: string)
      ensures state == Select(fields, table, [], [], [], [], None, None)
    {
      state := Select(fields, table, [], [], [], [], None, None);
    }

    method Where(condition: Option<seq<Chunk>>)
      modifies this
      ensures state == old(state).(wheres := old(state).wheres + [condition])
    {
      state := state.(wheres := state.wheres + [condition]);
    }

    method JoinOn(kind: string, table: string, condition: seq<Chunk>)
      modifies this
      ensures state == old(state).(joins := old(state).joins + [Join(kind, table, condition)])
    {
      state := state.(joins := state.joins + [Join(kind, table, condition)]);
    }

    method OrderBy(orders: seq<Option<seq<Chunk>>>)
      modifies this
      ensures state == old(state).(orders := old(state).orders + orders)
    {
      state := state.(orders := state.orders + orders);
    }

    method GroupByColumns(columns: seq<GroupBy>)
      modifies this
      ensures state == old(state).(groupBys := old(state).groupBys + columns)
    {
      state := state.(groupBys := state.groupBys + columns);
    }

    method Limit(n: int)
      modifies this
      ensures state == old(state).(limit := Some(n))
    {
      state := state.(limit := Some(n));
    }

    method Offset(n: int)
      modifies this
      ensures state == old(state).(offset := Some(n))
    {
      state := state.(offset := Some(n));
    }

    /** The statement text and its parameters, clause by clause over one shared list. */
    method Exec() returns (q: seq<Token>, params: ParamList)
      ensures fresh(params)
      ensures q == SelectTokens(state)
      ensures params.items == Values(BodyPieces(state))
    {
      params := new ParamList();
      var cols := BuildSelectCols(state.fields);
      var body := Chars(" FROM [" + state.table + "]");
      ghost var pieces := Plains(" FROM [" + state.table + "]");
      NumberedPlains(" FROM [" + state.table + "]", 0);

      var text := WriteJoins(state.joins, params);
      pieces := Extend(pieces, JoinsPieces(state.joins), body, text);
      body := body + text;

      text := WriteWheres(state.wheres, params);
      pieces := Extend(pieces, WherePieces(state.wheres), body, text);
      body := body + text;

      text := WriteFiltered(" GROUP BY ", GroupParts(state.groupBys), params);
      pieces := Extend(pieces, FilteredPieces(" GROUP BY ", GroupParts(state.groupBys)), body, text);
      body := body + text;

      text := WriteFiltered(" ORDER BY ", OrderParts(state.orders), params);
      pieces := Extend(pieces, FilteredPieces(" ORDER BY ", OrderParts(state.orders)), body, text);
      body := body + text;

      text := Chars(LimitText(state));
      NumberedPlains(LimitText(state), |params.items|);
      pieces := Extend(pieces, Plains(LimitText(state)), body, text);
      body := body + text;

      q := Chars("SELECT ") + cols + body;
    }

    /** One call of a chain. */
    method Call(call: BuilderCall)
      modifies this
      ensures state == Recorded(old(state), call)
    {
      match call {
        case Filter(condition) => Where(condition);
        case Attach(join) => JoinOn(join.kind, join.table, join.condition);
        case Sort(orders) => OrderBy(orders);
        case Group(columns) => GroupByColumns(columns);
        case Cap(n) => Limit(n);
        case Skip(n) => Offset(n);
      }
    }
  }

  // ---- A chain of builder calls ----------------------------------------------------------------

  datatype BuilderCall =
    | Filter(condition: Option<seq<Chunk>>)
    | Attach(join: Join)
    | Sort(orders: seq<Option<seq<Chunk>>>)
    | Group(columns: seq<GroupBy>)
    | Cap(n: int)
    | Skip(n: int)

  function Recorded(s: Select, call: BuilderCall): Select {
    match call
    case Filter(condition) => s.(wheres := s.wheres + [condition])
    case Attach(join) => s.(joins := s.joins + [join])
    case Sort(orders) => s.(orders := s.orders + orders)
    case Group(columns) => s.(groupBys := s.groupBys + columns)
    case Cap(n) => s.(limit := Some(n))
    case Skip(n) => s.(offset := Some(n))
  }

  /** What the builder holds after a chain of calls. */
  function Built(fields: Option<seq<Field>>, table: string, calls: seq<BuilderCall>): Select {
    if calls == [] then Select(fields, table, [], [], [], [], None, None)
    else Recorded(Built(fields, table, calls[..|calls| - 1]), calls[|calls| - 1])
  }

  /** A whole query: the builder, the calls chained to it, and its execution. */
  method RunChain(fields: Option<seq<Field>>, table: string, calls: seq<BuilderCall>)
      returns (q: seq<Token>, params: ParamList)
    ensures fresh(params)
    ensures q == SelectTokens(Built(fields, table, calls))
    ensures params.items == Values(BodyPieces(Built(fields, table, calls)))
  {
    var builder := new SelectBuilder(fields, table);
    var i := 0;
    while i < |calls|
      invariant 0 <= i <= |calls|
      invariant builder.state == Built(fields, table, calls[..i])
    {
      assert calls[..i + 1][..i] == calls[..i];
      builder.Call(calls[i]);
      i := i + 1;
    }
    assert calls[..|calls|] == calls;
    q, params := builder.Exec();
  }

  function Filters(calls: seq<BuilderCall>): seq<Option<seq<Chunk>>> {
    if calls == [] then []
    else if calls[0].Filter? then [calls[0].condition] + Filters(calls[1..])
    else Filters(calls[1..])
  }

  function Joins(calls: seq<BuilderCall>): seq<Join> {
    if calls == [] then []
    else if calls[0].Attach? then [calls[0].join] + Joins(calls[1..])
    else Joins(calls[1..])
  }

  function Sorts(calls: seq<BuilderCall>): seq<Option<seq<Chunk>>> {
    if calls == [] then []
    else if calls[0].Sort? then calls[0].orders + Sorts(calls[1..])
    else Sorts(calls[1..])
  }

  function Groups(calls: seq<BuilderCall>): seq<GroupBy> {
    if calls == [] then []
    else if calls[0].Group? then calls[0].columns + Groups(calls[1..])
    else Groups(calls[1..])
  }

  function LastCap(calls: seq<BuilderCall>): Option<int> {
    if calls == [] then None
    else if calls[|calls| - 1].Cap? then Some(calls[|calls| - 1].n)
    else LastCap(calls[..|calls| - 1])
  }

  function LastSkip(calls: seq<BuilderCall>): Option<int> {
    if calls == [] then None
    else if calls[|calls| - 1].Skip? then Some(calls[|calls| - 1].n)
    else LastSkip(calls[..|calls| - 1])
  }

  lemma {:induction false} CollectedLast(calls: seq<BuilderCall>, last: BuilderCall)
    ensures Filters(calls + [last]) == Filters(calls) + if last.Filter? then [last.condition] else []
    ensures Joins(calls + [last]) == Joins(calls) + if last.Attach? then [last.join] else []
    ensures Sorts(calls + [last]) == Sorts(calls) + if last.Sort? then last.orders else []
    ensures Groups(calls + [last]) == Groups(calls) + if last.Group? then last.columns else []
  {
    if calls == [] {
      assert calls + [last] == [last] && [last][1..] == [];
    } else {
      assert (calls + [last])[1..] == calls[1..] + [last];
      CollectedLast(calls[1..], last);
    }
  }

  /**
   A chain leaves the builder with the calls of each kind in their order, and the last limit and offset;
   how the kinds were mixed does not show.
   */
  lemma {:induction false} ChainCollects(fields: Option<seq<Field>>, table: string, calls: seq<BuilderCall>)
    ensures Built(fields, table, calls)
            == Select(fields, table, Joins(calls), Filters(calls), Groups(calls), Sorts(calls), LastCap(calls),
                LastSkip(calls))
  {
    if calls != [] {
      var init, last := calls[..|calls| - 1], calls[|calls| - 1];
      ChainCollects(fields, table, init);
      assert calls == init + [last];
      CollectedLast(init, last);
    }
  }

  /** Neighbouring calls of different kinds may change places. */
  lemma CallsCommute(fields: Option<seq<Field>>, table: string, before: seq<BuilderCall>, a: BuilderCall,
      b: BuilderCall, after: seq<BuilderCall>)
    requires Kind(a) != Kind(b)
    ensures SelectTokens(Built(fields, table, before + [a, b] + after))
            == SelectTokens(Built(fields, table, before + [b, a] + after))
  {
    SwapIsSame(fields, table, before, a, b);
    SameFromThere(fields, table, before + [a, b], before + [b, a], after);
  }

  function Kind(call: BuilderCall): nat {
    match call
    case Filter(_) => 0
    case Attach(_) => 1
    case Sort(_) => 2
    case Group(_) => 3
    case Cap(_) => 4
    case Skip(_) => 5
  }

  lemma SwapIsSame(fields: Option<seq<Field>>, table: string, before: seq<BuilderCall>, a: BuilderCall, b: BuilderCall)
    requires Kind(a) != Kind(b)
    ensures Built(fields, table, before + [a, b]) == Built(fields, table, before + [b, a])
  {
    BuiltTwo(fields, table, before, a, b);
    BuiltTwo(fields, table, before, b, a);
  }

  lemma BuiltTwo(fields: Option<seq<Field>>, table: string, before: seq<BuilderCall>, a: BuilderCall, b: BuilderCall)
    ensures Built(fields, table, before + [a, b]) == Recorded(Recorded(Built(fields, table, before), a), b)
  {
    var all := before + [a, b];
    assert all[..|all| - 1] == before + [a] && (before + [a])[..|before|] == before;
  }

  lemma {:induction false} SameFromThere(fields: Option<seq<Field>>, table: string, a: seq<BuilderCall>,
      b: seq<BuilderCall>, after: seq<BuilderCall>)
    requires Built(fields, table, a) == Built(fields, table, b)
    ensures Built(fields, table, a + after) == Built(fields, table, b + after)
  {
    if after == [] {
      assert a + after == a && b + after == b;
    } else {
      var init := after[..|after| - 1];
      SameFromThere(fields, table, a, b, init);
      assert (a + after)[..|a + after| - 1] == a + init && (b + after)[..|b + after| - 1] == b + init;
    }
  }

  /** One more clause behind a body that is already numbered. */
  lemma Extend(pieces: seq<Piece>, clause: seq<Piece>, body: seq<Token>, text: seq<Token>) returns (all: seq<Piece>)
    requires body == Numbered(pieces, 0)
    requires text == Numbered(clause, |Values(pieces)|)
    ensures all == pieces + clause
    ensures body + text == Numbered(all, 0)
    ensures Values(all) == Values(pieces) + Values(clause)
  {
    all := pieces + clause;
    NumberedAppend(pieces, clause, 0);
  }

  /** A keyword in front of a clause adds text but no value. */
  lemma KeywordNumbered(keyword: string, clause: seq<Piece>, used: nat)
    ensures Values(Plains(keyword) + clause) == Values(clause)
    ensures Numbered(Plains(keyword) + clause, used) == Chars(keyword) + Numbered(clause, used)
  {
    NumberedAppend(Plains(keyword), clause, used);
    NumberedPlains(keyword, used);
  }

  method WriteJoin(j: Join, params: ParamList) returns (text: seq<Token>)
    modifies params
    ensures params.items == old(params.items) + Values(Plains(JoinHead(j)) + Inline(j.condition))
    ensures text == Numbered(Plains(JoinHead(j)) + Inline(j.condition), |old(params.items)|)
  {
    var condition := SerializeChunks(j.condition, params);
    text := Chars(JoinHead(j)) + condition;
    KeywordNumbered(JoinHead(j), Inline(j.condition), |old(params.items)|);
  }

  lemma JoinsLast(joins: seq<Join>, i: nat)
    requires i < |joins|
    ensures JoinsPieces(joins[..i + 1]) == JoinsPieces(joins[..i])
            + (Plains(JoinHead(joins[i])) + Inline(joins[i].condition))
  {
    assert joins[..i + 1][..i] == joins[..i];
  }

  method WriteJoins(joins: seq<Join>, params: ParamList) returns (text: seq<Token>)
    modifies params
    ensures params.items == old(params.items) + Values(JoinsPieces(joins))
    ensures text == Numbered(JoinsPieces(joins), |old(params.items)|)
  {
    text := [];
    ghost var before, pieces: seq<Piece> := params.items, [];
    var i := 0;
    while i < |joins|
      invariant 0 <= i <= |joins|
      invariant pieces == JoinsPieces(joins[..i])
      invariant params.items == before + Values(pieces)
      invariant text == Numbered(pieces, |before|)
    {
      ghost var last := Plains(JoinHead(joins[i])) + Inline(joins[i].condition);
      var clause := WriteJoin(joins[i], params);
      text := text + clause;
      NumberedAppend(pieces, last, |before|);
      AppendAssociates(before, Values(pieces), Values(last));
      JoinsLast(joins, i);
      pieces := pieces + last;
      i := i + 1;
    }
    assert joins[..i] == joins;
  }

  method WriteWheres(wheres: seq<Option<seq<Chunk>>>, params: ParamList) returns (text: seq<Token>)
    modifies params
    ensures params.items == old(params.items) + Values(WherePieces(wheres))
    ensures text == Numbered(WherePieces(wheres), |old(params.items)|)
  {
    if wheres == [] { return []; }
    var parts := SerializeParts(WhereParts(wheres), params);
    text := Chars(" WHERE ") + JoinTokens(parts, " AND ");
    JoinNumbered(PartsPieces(WhereParts(wheres)), " AND ", |old(params.items)|);
    KeywordNumbered(" WHERE ", JoinPieces(PartsPieces(WhereParts(wheres)), " AND "), |old(params.items)|);
  }

  method WriteFiltered(keyword: string, entries: seq<Part>, params: ParamList) returns (text: seq<Token>)
    modifies params
    ensures params.items == old(params.items) + Values(FilteredPieces(keyword, entries))
    ensures text == Numbered(FilteredPieces(keyword, entries), |old(params.items)|)
  {
    var parts := SerializeParts(entries, params);
    parts := NonEmpty(parts);
    JoinNonEmptyNumbered(PartsPieces(entries), ", ", |old(params.items)|);
    KeywordNumbered(keyword, JoinPieces(NonEmpty(PartsPieces(entries)), ", "), |old(params.items)|);
    text := if |parts| > 0 then Chars(keyword) + JoinTokens(parts, ", ") else [];
  }

  /** No selected expression binds a value. */
  predicate ParameterFree(fields: Option<seq<Field>>) {
    Values(ListPiecesOf(fields)) == []
  }

  lemma {:induction false} RefsAppend(a: seq<Token>, b: seq<Token>)
    ensures Refs(a + b) == Refs(a) + Refs(b)
  {
    if a == [] {
      assert a + b == b;
    } else {
      assert (a + b)[0] == a[0] && (a + b)[1..] == a[1..] + b;
      RefsAppend(a[1..], b);
      AppendAssociates(RefsOne(a[0]), Refs(a[1..]), Refs(b));
    }
  }

  lemma {:induction false} RefsOfChars(s: string)
    ensures Refs(Chars(s)) == []
  {
    if s != "" {
      assert Chars(s)[1..] == Chars(s[1..]);
      RefsOfChars(s[1..]);
    }
  }

  /**
   The written select list has as many placeholders as the meant one has values, and is its numbering when there are
   none.
   */
  lemma {:induction false} FieldListRefs(fields: seq<Field>)
    ensures FieldsTokens(fields) == [] <==> FieldsPieces(fields) == []
    ensures var text, pieces := JoinTokens(FieldsTokens(fields), ", "), JoinPieces(FieldsPieces(fields), ", ");
            && |Refs(text)| == |Values(pieces)|
            && (Values(pieces) == [] ==> text == Numbered(pieces, 0))
  {
    if fields != [] {
      var init, last := fields[..|fields| - 1], fields[|fields| - 1];
      FieldListRefs(init);
      if !last.Ignored? {
        FieldStep(FieldsPieces(init), FieldsTokens(init), FieldPieces(last));
      }
    }
  }

  lemma FieldStep(parts: seq<seq<Piece>>, texts: seq<seq<Token>>, last: seq<Piece>)
    requires parts == [] <==> texts == []
    requires |Refs(JoinTokens(texts, ", "))| == |Values(JoinPieces(parts, ", "))|
    requires Values(JoinPieces(parts, ", ")) == [] ==> JoinTokens(texts, ", ") == Numbered(JoinPieces(parts, ", "), 0)
    ensures var text, pieces := JoinTokens(texts + [Numbered(last, 0)], ", "), JoinPieces(parts + [last], ", ");
            && |Refs(text)| == |Values(pieces)|
            && (Values(pieces) == [] ==> text == Numbered(pieces, 0))
  {
    var joined := JoinPieces(parts, ", ");
    PlaceholdersConsecutive(last, 0);
    if parts == [] {
      assert parts + [last] == [last] && texts + [Numbered(last, 0)] == [Numbered(last, 0)];
    } else {
      JoinPiecesLast(parts, last, ", ");
      JoinTokensLast(texts, Numbered(last, 0), ", ");
      NumberedAppend(joined + Plains(", "), last, 0);
      NumberedAppend(joined, Plains(", "), 0);
      NumberedPlains(", ", |Values(joined)|);
      RefsAppend(JoinTokens(texts, ", ") + Chars(", "), Numbered(last, 0));
      RefsAppend(JoinTokens(texts, ", "), Chars(", "));
      RefsOfChars(", ");
    }
  }

  lemma SelectListRefs(fields: Option<seq<Field>>)
    ensures |Refs(ListTokensOf(fields))| == |Values(ListPiecesOf(fields))|
    ensures ParameterFree(fields) ==> ListTokensOf(fields) == Numbered(ListPiecesOf(fields), 0)
  {
    NumberedPlains("*", 0);
    RefsOfChars("*");
    if fields.Some? {
      FieldListRefs(fields.value);
    }
  }

  /**
   The placeholders of a select statement are @p1..@pn, once each and in order
   across JOIN, WHERE, GROUP BY and ORDER BY, exactly when no selected
   expression binds a value.
   */
  lemma SelectPlaceholders(s: Select)
    ensures Refs(SelectTokens(s)) == Consecutive(0, |Values(BodyPieces(s))|) <==> ParameterFree(s.fields)
  {
    RefsOfChars("SELECT ");
    RefsOfThree(Chars("SELECT "), ListTokensOf(s.fields), Numbered(BodyPieces(s), 0));
    SelectListRefs(s.fields);
    PlaceholdersConsecutive(BodyPieces(s), 0);
  }

  lemma RefsOfThree(a: seq<Token>, b: seq<Token>, c: seq<Token>)
    requires Refs(a) == []
    ensures Refs(a + b + c) == Refs(b) + Refs(c)
    ensures Refs(a + b + c) == Refs(c) <==> Refs(b) == []
  {
    RefsAppend(a + b, c);
    RefsAppend(a, b);
    if Refs(b) + Refs(c) == Refs(c) {
      assert |Refs(b) + Refs(c)| == |Refs(c)|;
    }
  }

  lemma FreeListNumbered(keyword: string, list: seq<Piece>, body: seq<Piece>)
    requires Values(list) == []
    ensures Numbered(Plains(keyword) + list + body, 0) == Chars(keyword) + Numbered(list, 0) + Numbered(body, 0)
    ensures Values(Plains(keyword) + list + body) == Values(body)
  {
    KeywordNumbered(keyword, list, 0);
    NumberedAppend(Plains(keyword) + list, body, 0);
  }

  /** With parameter-free fields the sent statement and its parameters mean the statement with its values inline. */
  lemma SelectMeaning(s: Select)
    requires ParameterFree(s.fields)
    ensures SelectTokens(s) == Numbered(SelectPieces(s), 0)
    ensures Values(SelectPieces(s)) == Values(BodyPieces(s))
    ensures RefsWithin(SelectTokens(s), |Values(BodyPieces(s))|)
    ensures Substitute(SelectTokens(s), Values(BodyPieces(s))) == SelectPieces(s)
  {
    SelectListRefs(s.fields);
    FreeListNumbered("SELECT ", ListPiecesOf(s.fields), BodyPieces(s));
    SubstituteRestores(SelectPieces(s), 0, Values(SelectPieces(s)));
  }

  /** A bound select expression leaves a placeholder with no parameter behind it. */
  lemma BoundFieldDangles()
    ensures var s := Select(Some([Expression("x", [Param(Boolean(true))])]), "t", [], [], [], [], None, None);
            Refs(SelectTokens(s)) == [1] && Values(BodyPieces(s)) == []
  {
    var chunks := [Param(Boolean(true))];
    var field := Expression("x", chunks);
    var s := Select(Some([field]), "t", [], [], [], [], None, None);
    InlineSingle(chunks[0]);
    OneBoundField(field);
    EmptyBody(s);
    RefsOfChars("SELECT ");
    RefsOfThree(Chars("SELECT "), ListTokensOf(s.fields), Numbered(BodyPieces(s), 0));
    PlaceholdersConsecutive(BodyPieces(s), 0);
  }

  lemma OneBoundField(field: Field)
    requires field.Expression? && |Values(Inline(field.chunks))| == 1
    ensures Refs(ListTokensOf(Some([field]))) == [1]
  {
    assert [field][..0] == [];
    assert FieldsTokens([field]) == [Numbered(FieldPieces(field), 0)];
    NumberedAppend(Inline(field.chunks), Plains(AliasText(field)), 0);
    NumberedPlains(AliasText(field), 1);
    PlaceholdersConsecutive(FieldPieces(field), 0);
  }

  lemma EmptyBody(s: Select)
    requires s.joins == [] && s.wheres == [] && s.groupBys == [] && s.orders == [] && s.limit == None
    ensures Values(BodyPieces(s)) == []
  {
    assert GroupParts(s.groupBys) == [] && OrderParts(s.orders) == [];
    assert Plains(LimitText(s)) == [];
    assert BodyPieces(s) == Plains(" FROM [" + s.table + "]");
    NumberedPlains(" FROM [" + s.table + "]", 0);
  }

  // ---- UPDATE, DELETE and raw queries ------------------------------------------------------

  /** One assignment of SET; an undefined value is left out, a null is bound. */
  datatype Assignment = Assignment(column: string, value: Option<Value>)

  function SetHead(a: Assignment): string { "[" + a.column + "] = " }

  function SetPiece(a: Assignment): seq<Piece>
    requires a.value.Some?
  {
    Plains(SetHead(a)) + [Bound(a.value.value)]
  }

  function SetPieces(assignments: seq<Assignment>): seq<seq<Piece>> {
    if assignments == [] then []
    else
      var init, last := SetPieces(assignments[..|assignments| - 1]), assignments[|assignments| - 1];
      if last.value.None? then init else init + [SetPiece(last)]
  }

  /** WHERE of UPDATE and DELETE; without a condition the statement has none. */
  function ConditionPieces(condition: Option<seq<Chunk>>): seq<Piece> {
    match condition
    case None => []
    case Some(chunks) => Plains(" WHERE ") + Inline(chunks)
  }

  function UpdateHead(table: string): string { "UPDATE [" + table + "] SET " }

  function UpdatePieces(table: string, assignments: seq<Assignment>, condition: Option<seq<Chunk>>): seq<Piece> {
    Plains(UpdateHead(table)) + JoinPieces(SetPieces(assignments), ", ") + ConditionPieces(condition)
  }

  function DeletePieces(table: string, condition: Option<seq<Chunk>>): seq<Piece> {
    Plains("DELETE FROM [" + table + "]") + ConditionPieces(condition)
  }

  method WriteSet(a: Assignment, params: ParamList) returns (text: seq<Token>)
    requires a.value.Some?
    modifies params
    ensures params.items == old(params.items) + Values(SetPiece(a))
    ensures text == Numbered(SetPiece(a), |old(params.items)|)
  {
    var placeholder := params.Push(a.value.value);
    text := Chars(SetHead(a)) + placeholder;
    KeywordNumbered(SetHead(a), [Bound(a.value.value)], |old(params.items)|);
    BoundSingle(a.value.value);
  }

  lemma SetsLast(assignments: seq<Assignment>, i: nat)
    requires i < |assignments|
    ensures SetPieces(assignments[..i + 1])
            == SetPieces(assignments[..i]) + (if assignments[i].value.None? then [] else [SetPiece(assignments[i])])
  {
    assert assignments[..i + 1][..i] == assignments[..i];
  }

  method WriteSets(assignments: seq<Assignment>, params: ParamList) returns (parts: seq<seq<Token>>)
    modifies params
    ensures params.items == old(params.items) + AllValues(SetPieces(assignments))
    ensures parts == NumberedParts(SetPieces(assignments), |old(params.items)|)
  {
    parts := [];
    ghost var before, pieces: seq<seq<Piece>> := params.items, [];
    var i := 0;
    while i < |assignments|
      invariant 0 <= i <= |assignments|
      invariant pieces == SetPieces(assignments[..i])
      invariant Written(params.items, before, pieces, parts)
    {
      SetsLast(assignments, i);
      if assignments[i].value.Some? {
        ghost var last := SetPiece(assignments[i]);
        WrittenStep(params.items, before, pieces, parts, last, |params.items|);
        var text := WriteSet(assignments[i], params);
        parts := parts + [text];
        pieces := pieces + [last];
      }
      i := i + 1;
    }
    assert assignments[..i] == assignments;
  }

  method WriteCondition(condition: Option<seq<Chunk>>, params: ParamList) returns (text: seq<Token>)
    modifies params
    ensures params.items == old(params.items) + Values(ConditionPieces(condition))
    ensures text == Numbered(ConditionPieces(condition), |old(params.items)|)
  {
    match condition {
      case None =>
        text := [];
      case Some(chunks) =>
        text := SerializeChunks(chunks, params);
        text := Chars(" WHERE ") + text;
        KeywordNumbered(" WHERE ", Inline(chunks), |old(params.items)|);
    }
  }

  /** No statement is sent when nothing is set; otherwise SET and WHERE share one numbering. */
  method ExecUpdate(table: string, assignments: seq<Assignment>, condition: Option<seq<Chunk>>)
      returns (q: Option<seq<Token>>, params: ParamList)
    ensures fresh(params)
    ensures q.None? <==> forall a :: a in assignments ==> a.value.None?
    ensures q.Some? ==> q.value == Numbered(UpdatePieces(table, assignments, condition), 0)
    ensures q.Some? ==> params.items == Values(UpdatePieces(table, assignments, condition))
  {
    params := new ParamList();
    var setClauses := WriteSets(assignments, params);
    NothingSet(assignments);
    JoinNumbered(SetPieces(assignments), ", ", 0);
    if |setClauses| == 0 { return None, params; }
    var body := Chars(UpdateHead(table)) + JoinTokens(setClauses, ", ");
    ghost var sets := JoinPieces(SetPieces(assignments), ", ");
    KeywordNumbered(UpdateHead(table), sets, 0);
    assert params.items == Values(sets);
    var text := WriteCondition(condition, params);
    ghost var all := Extend(Plains(UpdateHead(table)) + sets, ConditionPieces(condition), body, text);
    q := Some(body + text);
  }

  lemma {:induction false} NothingSet(assignments: seq<Assignment>)
    ensures SetPieces(assignments) == [] <==> forall a :: a in assignments ==> a.value.None?
  {
    if assignments != [] {
      var init, last := assignments[..|assignments| - 1], assignments[|assignments| - 1];
      NothingSet(init);
      assert assignments == init + [last];
    }
  }

  method ExecDelete(table: string, condition: Option<seq<Chunk>>) returns (q: seq<Token>, params: ParamList)
    ensures fresh(params)
    ensures q == Numbered(DeletePieces(table, condition), 0)
    ensures params.items == Values(DeletePieces(table, condition))
  {
    params := new ParamList();
    q := Chars("DELETE FROM [" + table + "]");
    var text := WriteCondition(condition, params);
    KeywordNumbered("DELETE FROM [" + table + "]", ConditionPieces(condition), 0);
    q := q + text;
  }

  /** Every update and delete, and every raw query, means its text with the values inline. */
  lemma StatementMeaning(pieces: seq<Piece>)
    ensures Refs(Numbered(pieces, 0)) == Consecutive(0, |Values(pieces)|)
    ensures RefsWithin(Numbered(pieces, 0), |Values(pieces)|)
    ensures Substitute(Numbered(pieces, 0), Values(pieces)) == pieces
  {
    PlaceholdersConsecutive(pieces, 0);
    SubstituteRestores(pieces, 0, Values(pieces));
  }
}
