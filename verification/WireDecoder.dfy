/** The strict check of command bytes before protobuf decodes them. The wire
    format (varints, tags, wire types) is that of the Protocol Buffers encoding
    guide. */
module WireDecoder {
  import opened Options

  type byte = n: nat | n < 256
  type Bytes = seq<byte>

  datatype Kind = VarintKind | LengthKind | MessageKind | GroupKind | Fixed32Kind | Fixed64Kind

  /** A field of a message; `list` is false for a map. */
  datatype Field = Field(kind: Kind, list: bool, message: string, oneof: Option<nat>)

  /** Messages by name, fields by number. */
  type Schema = map<string, map<nat, Field>>

  const VARINT: nat := 0
  const FIXED64: nat := 1
  const LENGTH: nat := 2
  const FIXED32: nat := 5
  const MAX_NUMBER: nat := 2147483647

  // ---- the wire format, without a schema ----------------------------------------------------------

  datatype Consumed<T> = Bad | Got(value: T, size: nat)

  /** A varint: at most ten bytes, the tenth at most one. */
  function Varint(b: Bytes, i: nat): (r: Consumed<nat>)
    requires i <= 9
    ensures r.Got? ==> 0 < r.size <= |b| && r.size <= 10 - i
    decreases 10 - i
  {
    if b == [] then Bad
    else if i == 9 then if b[0] < 2 then Got(b[0], 1) else Bad
    else if b[0] < 128 then Got(b[0], 1)
    else
      var rest := Varint(b[1..], i + 1);
      if rest.Bad? then Bad else Got(b[0] - 128 + 128 * rest.value, rest.size + 1)
  }

  datatype Tag = Tag(number: nat, wireType: nat)

  function ConsumeTag(b: Bytes): (r: Consumed<Tag>)
    ensures r.Got? ==> 0 < r.size <= |b|
  {
    var v := Varint(b, 0);
    if v.Bad? || v.value / 8 > MAX_NUMBER || v.value / 8 < 1 then Bad
    else Got(Tag(v.value / 8, v.value % 8), v.size)
  }

  /** A tag is a varint of at least 8, for field 1, and below 2^34. */
  lemma TagMeans(b: Bytes)
    ensures ConsumeTag(b).Got? <==> Varint(b, 0).Got? && 8 <= Varint(b, 0).value < 0x4_0000_0000
    ensures ConsumeTag(b).Got? ==> 8 * ConsumeTag(b).value.number + ConsumeTag(b).value.wireType == Varint(b, 0).value
    ensures ConsumeTag(b).Got? ==> ConsumeTag(b).value.wireType < 8
  {}

  /** The size of a field value; groups do not occur here. */
  function ConsumeValue(wireType: nat, b: Bytes): (r: Consumed<Bytes>)
    ensures r.Got? ==> r.size <= |b| && |r.value| <= r.size
  {
    if wireType == VARINT then
      var v := Varint(b, 0);
      if v.Bad? then Bad else Got(b[..v.size], v.size)
    else if wireType == FIXED32 then if |b| < 4 then Bad else Got(b[..4], 4)
    else if wireType == FIXED64 then if |b| < 8 then Bad else Got(b[..8], 8)
    else if wireType == LENGTH then
      var n := Varint(b, 0);
      if n.Bad? || n.value > |b| - n.size then Bad else Got(b[n.size..n.size + n.value], n.size + n.value)
    else Bad
  }

  /** One field on the wire; a length-delimited payload is without its length. */
  datatype Token = Token(number: nat, wireType: nat, payload: Bytes)

  function NextToken(b: Bytes): (r: Consumed<Token>)
    ensures r.Got? ==> 0 < r.size <= |b| && |r.value.payload| < |b|
  {
    var tag := ConsumeTag(b);
    if tag.Bad? then Bad
    else
      var v := ConsumeValue(tag.value.wireType, b[tag.size..]);
      if v.Bad? then Bad else Got(Token(tag.value.number, tag.value.wireType, v.value), tag.size + v.size)
  }

  function Tokens(b: Bytes): (r: Option<seq<Token>>)
    ensures r.Some? ==> forall i :: 0 <= i < |r.value| ==> |r.value[i].payload| < |b|
    decreases |b|
  {
    if b == [] then Some([])
    else
      var t := NextToken(b);
      if t.Bad? then None
      else
        var rest := Tokens(b[t.size..]);
        if rest.None? then None else Some([t.value] + rest.value)
  }

  // ---- what a command must be ---------------------------------------------------------------------------

  predicate IsMessage(f: Field) {
    f.kind.MessageKind? || f.kind.GroupKind?
  }

  function Expected(f: Field): nat {
    match f.kind
    case LengthKind => LENGTH
    case MessageKind => LENGTH
    case Fixed32Kind => FIXED32
    case Fixed64Kind => FIXED64
    case VarintKind => VARINT
    case GroupKind => VARINT
  }

  /** The field's own wire type, or the packed form of a list of scalars. A
      group has no legal form but that of a list entry. */
  predicate Legal(f: Field, wireType: nat) {
    && (wireType == Expected(f) || (f.list && Expected(f) != LENGTH && wireType == LENGTH))
    && (IsMessage(f) ==> wireType == LENGTH)
  }

  /** Which wire types each kind of field may have: its own, the packed form for a
      list of numbers, and none for a group but that of a list entry. */
  lemma LegalMeans(f: Field, wireType: nat)
    ensures Legal(f, wireType) <==>
      match f.kind
      case VarintKind => wireType == 0 || (f.list && wireType == 2)
      case Fixed64Kind => wireType == 1 || (f.list && wireType == 2)
      case Fixed32Kind => wireType == 5 || (f.list && wireType == 2)
      case LengthKind => wireType == 2
      case MessageKind => wireType == 2
      case GroupKind => f.list && wireType == 2
  {}

  predicate Known(schema: Schema, msg: string, number: nat) {
    msg in schema && number in schema[msg]
  }

  /** No singular field occurs twice. */
  ghost predicate NoDuplicates(schema: Schema, msg: string, ts: seq<Token>) {
    forall i, j :: 0 <= i < j < |ts| && ts[i].number == ts[j].number && Known(schema, msg, ts[i].number) ==> schema[msg][ts[i].number].list
  }

  ghost predicate TokenOk(schema: Schema, msg: string, t: Token)
    decreases |t.payload|, 2
  {
    && Known(schema, msg, t.number) && Legal(schema[msg][t.number], t.wireType)
    && (IsMessage(schema[msg][t.number]) ==> Accepts(schema, schema[msg][t.number].message, t.payload))
  }

  /** Every field at every depth is known, has a legal wire type and, if
      singular, occurs at most once. */
  ghost predicate Accepts(schema: Schema, msg: string, b: Bytes)
    decreases |b|, 1
  {
    && Tokens(b).Some?
    && NoDuplicates(schema, msg, Tokens(b).value)
    && forall i :: 0 <= i < |Tokens(b).value| ==> TokenOk(schema, msg, Tokens(b).value[i])
  }

  // ---- the check ------------------------------------------------------------------------------------------

  /** The tokens read so far and the bytes left make up the input. */
  ghost predicate Reads(b: Bytes, done: seq<Token>, rest: Bytes) {
    && |rest| <= |b|
    && Tokens(b) == if Tokens(rest).None? then None else Some(done + Tokens(rest).value)
  }

  lemma ReadsNext(b: Bytes, done: seq<Token>, rest: Bytes)
    requires Reads(b, done, rest) && rest != []
    ensures NextToken(rest).Bad? ==> Tokens(b).None?
    ensures NextToken(rest).Got? ==> Reads(b, done + [NextToken(rest).value], rest[NextToken(rest).size..])
    ensures NextToken(rest).Got? && Tokens(b).Some? ==> |Tokens(b).value| > |done| && Tokens(b).value[|done|] == NextToken(rest).value
    ensures Tokens(b).Some? ==> done <= Tokens(b).value
  {
    if NextToken(rest).Got? && Tokens(rest).Some? {
      var t := NextToken(rest);
      assert done + ([t.value] + Tokens(rest[t.size..]).value) == (done + [t.value]) + Tokens(rest[t.size..]).value;
    }
  }

  /** A token that fails, or repeats a singular field, makes the input fail. */
  lemma BadToken(schema: Schema, msg: string, b: Bytes, done: seq<Token>, t: Token)
    requires Tokens(b).Some? ==> |Tokens(b).value| > |done| && Tokens(b).value[|done|] == t && done <= Tokens(b).value
    requires !TokenOk(schema, msg, t) || !NoDuplicates(schema, msg, done + [t])
    ensures !Accepts(schema, msg, b)
  {
    hide TokenOk;
    if Tokens(b).Some? && NoDuplicates(schema, msg, Tokens(b).value) {
      var ts := Tokens(b).value;
      assert ts[..|done| + 1] == done + [t];
      forall i, j | 0 <= i < j < |done + [t]| && (done + [t])[i].number == (done + [t])[j].number && Known(schema, msg, (done + [t])[i].number)
        ensures schema[msg][(done + [t])[i].number].list
      {
        assert ts[i] == (done + [t])[i] && ts[j] == (done + [t])[j];
      }
      assert NoDuplicates(schema, msg, done + [t]);
    }
  }

  /** `seen` holds the field numbers of the tokens. */
  ghost predicate Numbers(done: seq<Token>, seen: set<nat>) {
    forall n :: n in seen <==> exists i :: 0 <= i < |done| && done[i].number == n
  }

  lemma OneMoreToken(schema: Schema, msg: string, done: seq<Token>, t: Token, seen: set<nat>)
    requires NoDuplicates(schema, msg, done) && Numbers(done, seen)
    requires Known(schema, msg, t.number)
    ensures NoDuplicates(schema, msg, done + [t]) <==> !(t.number in seen && !schema[msg][t.number].list)
  {
    var all := done + [t];
    if t.number in seen && !schema[msg][t.number].list {
      var i :| 0 <= i < |done| && done[i].number == t.number;
      assert all[i].number == all[|done|].number;
    }
  }

  /** What the tag and the value say about the next token. */
  lemma TokenFromParts(rest: Bytes)
    ensures NextToken(rest).Got? <==>
      ConsumeTag(rest).Got? && ConsumeValue(ConsumeTag(rest).value.wireType, rest[ConsumeTag(rest).size..]).Got?
  {}

  /** The next token, whatever its value turns out to be, rules the input out. */
  lemma BadTag(schema: Schema, msg: string, b: Bytes, done: seq<Token>, rest: Bytes, seen: set<nat>)
    requires Reads(b, done, rest) && rest != [] && ConsumeTag(rest).Got? && NoDuplicates(schema, msg, done)
    requires Numbers(done, seen)
    requires var tag := ConsumeTag(rest).value;
      || !Known(schema, msg, tag.number) || !Legal(schema[msg][tag.number], tag.wireType)
      || (tag.number in seen && !schema[msg][tag.number].list)
    ensures !Accepts(schema, msg, b)
  {
    hide Varint, Tokens, Accepts, Reads;
    ReadsNext(b, done, rest);
    if NextToken(rest).Got? {
      var t := NextToken(rest).value;
      if Known(schema, msg, t.number) { OneMoreToken(schema, msg, done, t, seen); }
      BadToken(schema, msg, b, done, t);
    } else {
      NoTokens(schema, msg, b);
    }
  }

  lemma NoTokens(schema: Schema, msg: string, b: Bytes)
    requires Tokens(b).None?
    ensures !Accepts(schema, msg, b)
  {}

  lemma AllRead(schema: Schema, msg: string, b: Bytes, done: seq<Token>)
    requires Reads(b, done, []) && NoDuplicates(schema, msg, done) && forall i :: 0 <= i < |done| ==> TokenOk(schema, msg, done[i])
    ensures Accepts(schema, msg, b) && Tokens(b) == Some(done)
  {
    assert Tokens([]) == Some([]);
    assert done + [] == done;
  }

  /** validateCommandBytes accepts exactly the inputs described, with exactly
      one field at the top of a command. */
  method ValidateCommandBytes(schema: Schema, msg: string, b: Bytes, union: bool) returns (ok: bool)
    ensures ok <==> Accepts(schema, msg, b) && (union ==> |Tokens(b).value| == 1)
    decreases |b|
  {
    hide Varint, Tokens, Accepts, Reads, NoDuplicates, ConsumeTag, ConsumeValue, TokenOk, NextToken, Legal, Numbers;
    var rest := b;
    var seen: set<nat> := {};
    var count := 0;
    ghost var done: seq<Token> := [];
    Begin(schema, msg, b);
    while rest != []
      invariant Reads(b, done, rest) && |rest| <= |b| && count == |done|
      invariant NoDuplicates(schema, msg, done) && forall i :: 0 <= i < |done| ==> TokenOk(schema, msg, done[i])
      invariant Numbers(done, seen)
      decreases |rest|
    {
      ReadsNext(b, done, rest);
      TokenFromParts(rest);
      var tag := ConsumeTag(rest);
      if tag.Bad? {
        NoTokens(schema, msg, b);
        return false;
      }
      var number, wireType := tag.value.number, tag.value.wireType;
      if !Known(schema, msg, number) || !Legal(schema[msg][number], wireType) || (number in seen && !schema[msg][number].list) {
        BadTag(schema, msg, b, done, rest, seen);
        return false;
      }
      var field := schema[msg][number];
      var value := ConsumeValue(wireType, rest[tag.size..]);
      if value.Bad? {
        NoTokens(schema, msg, b);
        return false;
      }
      ghost var t := NextToken(rest).value;
      TokenIs(rest);
      OneMoreToken(schema, msg, done, t, seen);
      var nested := true;
      if IsMessage(field) {
        nested := ValidateCommandBytes(schema, field.message, value.value, false);
      }
      TokenOkIs(schema, msg, t);
      if !nested {
        BadToken(schema, msg, b, done, t);
        return false;
      }
      SeenMore(done, t, seen);
      seen := seen + {number};
      done := done + [t];
      count := count + 1;
      rest := rest[tag.size..][value.size..];
    }
    AllRead(schema, msg, b, done);
    return !(union && count != 1);
  }

  lemma Begin(schema: Schema, msg: string, b: Bytes)
    ensures Reads(b, [], b) && NoDuplicates(schema, msg, []) && Numbers([], {})
  {
    if Tokens(b).Some? { assert [] + Tokens(b).value == Tokens(b).value; }
  }

  lemma TokenIs(rest: Bytes)
    requires NextToken(rest).Got?
    ensures var tag := ConsumeTag(rest);
      && tag.Got?
      && var v := ConsumeValue(tag.value.wireType, rest[tag.size..]);
      && v.Got? && NextToken(rest) == Got(Token(tag.value.number, tag.value.wireType, v.value), tag.size + v.size)
      && rest[tag.size + v.size..] == rest[tag.size..][v.size..]
  {}

  lemma TokenOkIs(schema: Schema, msg: string, t: Token)
    ensures TokenOk(schema, msg, t) <==>
      && Known(schema, msg, t.number) && Legal(schema[msg][t.number], t.wireType)
      && (IsMessage(schema[msg][t.number]) ==> Accepts(schema, schema[msg][t.number].message, t.payload))
  {}

  lemma SeenMore(done: seq<Token>, t: Token, seen: set<nat>)
    requires Numbers(done, seen)
    ensures Numbers(done + [t], seen + {t.number})
  {
    var all := done + [t];
    forall n ensures n in seen + {t.number} <==> exists i :: 0 <= i < |all| && all[i].number == n {
      if n in seen {
        var i :| 0 <= i < |done| && done[i].number == n;
        assert all[i].number == n;
      } else if n == t.number {
        assert all[|done|].number == n;
      }
    }
  }

  // ---- what decoding can still erase -------------------------------------------------------------------------

  ghost predicate SameOneof(schema: Schema, msg: string, a: nat, b: nat) {
    && Known(schema, msg, a) && Known(schema, msg, b) && a != b
    && schema[msg][a].oneof.Some? && schema[msg][a].oneof == schema[msg][b].oneof
  }

  /** Last one wins: a later token of the same singular field, or of another
      member of its oneof, erases this one. */
  ghost predicate Erased(schema: Schema, msg: string, ts: seq<Token>, i: nat)
    requires i < |ts|
  {
    exists j :: i < j < |ts| &&
      ((ts[j].number == ts[i].number && Known(schema, msg, ts[i].number) && !schema[msg][ts[i].number].list)
       || SameOneof(schema, msg, ts[i].number, ts[j].number))
  }

  ghost predicate NestedWhole(schema: Schema, msg: string, t: Token)
    decreases |t.payload|, 2
  {
    Known(schema, msg, t.number) && IsMessage(schema[msg][t.number]) ==> DecodesWhole(schema, schema[msg][t.number].message, t.payload)
  }

  /** Decoding erases nothing at any depth. */
  ghost predicate DecodesWhole(schema: Schema, msg: string, b: Bytes)
    decreases |b|, 1
  {
    && Tokens(b).Some?
    && forall i :: 0 <= i < |Tokens(b).value| ==> !Erased(schema, msg, Tokens(b).value, i) && NestedWhole(schema, msg, Tokens(b).value[i])
  }

  ghost predicate NestedOneofsApart(schema: Schema, msg: string, t: Token)
    decreases |t.payload|, 2
  {
    Known(schema, msg, t.number) && IsMessage(schema[msg][t.number]) ==> OneofsApart(schema, schema[msg][t.number].message, t.payload)
  }

  /** At no depth do two fields of one oneof occur together. */
  ghost predicate OneofsApart(schema: Schema, msg: string, b: Bytes)
    decreases |b|, 1
  {
    && Tokens(b).Some?
    && (forall i, j :: 0 <= i < j < |Tokens(b).value| ==> !SameOneof(schema, msg, Tokens(b).value[i].number, Tokens(b).value[j].number))
    && forall i :: 0 <= i < |Tokens(b).value| ==> NestedOneofsApart(schema, msg, Tokens(b).value[i])
  }

  /** On accepted input the only thing decoding can erase is a second member of
      a oneof. */
  lemma {:induction false} WholeExactlyWhenOneofsApart(schema: Schema, msg: string, b: Bytes)
    requires Accepts(schema, msg, b)
    ensures DecodesWhole(schema, msg, b) <==> OneofsApart(schema, msg, b)
    decreases |b|
  {
    var ts := Tokens(b).value;
    forall i | 0 <= i < |ts| ensures NestedWhole(schema, msg, ts[i]) <==> NestedOneofsApart(schema, msg, ts[i]) {
      assert TokenOk(schema, msg, ts[i]);
      if IsMessage(schema[msg][ts[i].number]) {
        WholeExactlyWhenOneofsApart(schema, schema[msg][ts[i].number].message, ts[i].payload);
      }
    }
    ErasedByOneof(schema, msg, ts);
  }

  lemma ErasedByOneof(schema: Schema, msg: string, ts: seq<Token>)
    requires NoDuplicates(schema, msg, ts)
    ensures (forall i :: 0 <= i < |ts| ==> !Erased(schema, msg, ts, i))
       <==> (forall i, j :: 0 <= i < j < |ts| ==> !SameOneof(schema, msg, ts[i].number, ts[j].number))
  {
    if i, j :| 0 <= i < j < |ts| && SameOneof(schema, msg, ts[i].number, ts[j].number) {
      assert Erased(schema, msg, ts, i);
    }
  }
}
