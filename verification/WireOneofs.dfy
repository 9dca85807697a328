/** Which descriptors let an accepted command lose a field: exactly those with a
    message below the top that has two fields of one oneof. */
module WireOneofs {
  import opened Options
  import opened PartSums
  import opened WireDecoder

  /** Field `n` of the message can occur in an accepted input: it has a legal
      wire type and a number a tag can carry. */
  predicate Sendable(schema: Schema, msg: string, n: nat) {
    Known(schema, msg, n) && 0 < n <= MAX_NUMBER && (schema[msg][n].kind.GroupKind? ==> schema[msg][n].list)
  }

  /** The field numbers lead from message to message. */
  predicate Leads(schema: Schema, msg: string, path: seq<nat>)
    decreases |path|, 0
  {
    path == [] ||
    (var before, n := path[..|path| - 1], path[|path| - 1];
     && Leads(schema, msg, before) && Sendable(schema, Target(schema, msg, before), n)
     && IsMessage(schema[Target(schema, msg, before)][n]))
  }

  function Target(schema: Schema, msg: string, path: seq<nat>): string
    requires Leads(schema, msg, path)
    decreases |path|, 1
  {
    if path == [] then msg
    else schema[Target(schema, msg, path[..|path| - 1])][path[|path| - 1]].message
  }

  /** Two fields of one oneof. */
  ghost predicate Pair(schema: Schema, msg: string, a: nat, b: nat) {
    SameOneof(schema, msg, a, b) && Sendable(schema, msg, a) && Sendable(schema, msg, b)
  }

  ghost predicate ReachesPair(schema: Schema, msg: string, path: seq<nat>, a: nat, b: nat) {
    path != [] && Leads(schema, msg, path) && Pair(schema, Target(schema, msg, path), a, b)
  }

  /** Some message below `msg` has two fields of one oneof. */
  ghost predicate NestedOneof(schema: Schema, msg: string) {
    exists path, a, b :: ReachesPair(schema, msg, path, a, b)
  }

  // ---- without one, accepted commands decode whole --------------------------------------------------------

  lemma {:induction false} TokenNumbers(b: Bytes)
    requires Tokens(b).Some?
    ensures forall i :: 0 <= i < |Tokens(b).value| ==> 0 < Tokens(b).value[i].number <= MAX_NUMBER
    decreases |b|
  {
    hide Varint, ConsumeValue;
    if b != [] { TokenNumbers(b[NextToken(b).size..]); }
  }

  lemma AcceptedIsSendable(schema: Schema, msg: string, b: Bytes, i: nat)
    requires Accepts(schema, msg, b) && i < |Tokens(b).value|
    ensures var t := Tokens(b).value[i];
      Sendable(schema, msg, t.number) && (IsMessage(schema[msg][t.number]) ==> Accepts(schema, schema[msg][t.number].message, t.payload))
  {
    hide Tokens;
    TokenNumbers(b);
    assert TokenOk(schema, msg, Tokens(b).value[i]);
  }

  lemma LeadsOn(schema: Schema, msg: string, path: seq<nat>, n: nat)
    requires Leads(schema, msg, path) && Sendable(schema, Target(schema, msg, path), n) && IsMessage(schema[Target(schema, msg, path)][n])
    ensures Leads(schema, msg, path + [n]) && Target(schema, msg, path + [n]) == schema[Target(schema, msg, path)][n].message
  {
    assert (path + [n])[..|path|] == path;
  }

  lemma {:induction false} ApartBelow(schema: Schema, root: string, path: seq<nat>, b: Bytes)
    requires !NestedOneof(schema, root) && Leads(schema, root, path) && Accepts(schema, Target(schema, root, path), b)
    requires path != [] || |Tokens(b).value| <= 1
    ensures OneofsApart(schema, Target(schema, root, path), b)
    decreases |b|
  {
    hide Tokens, Leads, Target, Accepts, TokenOk;
    var msg := Target(schema, root, path);
    AcceptedTokens(schema, msg, b);
    var ts := Tokens(b).value;
    forall i | 0 <= i < |ts| ensures NestedOneofsApart(schema, msg, ts[i]) {
      AcceptedIsSendable(schema, msg, b, i);
      if IsMessage(schema[msg][ts[i].number]) {
        LeadsOn(schema, root, path, ts[i].number);
        ApartBelow(schema, root, path + [ts[i].number], ts[i].payload);
      }
    }
    forall i, j | 0 <= i < j < |ts| ensures !SameOneof(schema, msg, ts[i].number, ts[j].number) {
      AcceptedIsSendable(schema, msg, b, i);
      AcceptedIsSendable(schema, msg, b, j);
      assert !ReachesPair(schema, root, path, ts[i].number, ts[j].number);
    }
  }

  lemma AcceptedTokens(schema: Schema, msg: string, b: Bytes)
    requires Accepts(schema, msg, b)
    ensures Tokens(b).Some?
  {}

  /** For a descriptor without a oneof below the top an accepted command decodes
      to what its bytes say, whichever occurrence wins. */
  lemma AcceptedDecodesWhole(schema: Schema, msg: string, b: Bytes)
    requires !NestedOneof(schema, msg) && Accepts(schema, msg, b) && |Tokens(b).value| == 1
    ensures DecodesWhole(schema, msg, b)
  {
    hide Tokens, Accepts, NestedOneof, OneofsApart, DecodesWhole;
    ApartBelow(schema, msg, [], b);
    WholeExactlyWhenOneofsApart(schema, msg, b);
  }

  // ---- writing the wire format -----------------------------------------------------------------------------

  /** What a varint can still hold at byte `i`. */
  function Room(i: nat): nat
    requires i <= 9
    decreases 10 - i
  {
    if i == 9 then 2 else 128 * Room(i + 1)
  }

  lemma RoomIs()
    ensures Room(0) == 0x1_0000_0000_0000_0000
  {
    assert Room(5) == 128 * 128 * 128 * 128 * 2;
  }

  function VarintBytes(n: nat, i: nat): (b: Bytes)
    requires i <= 9 && n < Room(i)
    ensures 0 < |b| <= 10 - i
    decreases 10 - i
  {
    if i == 9 || n < 128 then [n] else [128 + n % 128] + VarintBytes(n / 128, i + 1)
  }

  /** Reading a varint undoes writing it, whatever follows. */
  lemma {:induction false} VarintRoundTrip(n: nat, i: nat, rest: Bytes)
    requires i <= 9 && n < Room(i)
    ensures Varint(VarintBytes(n, i) + rest, i) == Got(n, |VarintBytes(n, i)|)
    decreases 10 - i
  {
    var b := VarintBytes(n, i) + rest;
    if i < 9 && n >= 128 {
      VarintRoundTrip(n / 128, i + 1, rest);
      assert b[1..] == VarintBytes(n / 128, i + 1) + rest;
    }
  }

  /** What is read fits into 64 bits. */
  lemma {:induction false} VarintFits(b: Bytes, i: nat)
    requires i <= 9 && Varint(b, i).Got?
    ensures Varint(b, i).value < Room(i)
    decreases 10 - i
  {
    if i < 9 && b[0] >= 128 { VarintFits(b[1..], i + 1); } else if i < 9 { RoomFor(i); }
  }

  lemma {:induction false} RoomFor(i: nat)
    requires i < 9
    ensures Room(i) >= 128
    decreases 10 - i
  {
    if i < 8 { RoomFor(i + 1); }
  }

  function TagBytes(number: nat, wireType: nat): (b: Bytes)
    requires 0 < number <= MAX_NUMBER && wireType < 8
    ensures 0 < |b| <= 10
  {
    RoomIs();
    VarintBytes(8 * number + wireType, 0)
  }

  /** A field value of the wire type that is as short as it can be. */
  function ShortValue(wireType: nat): Bytes {
    if wireType == FIXED32 then [0, 0, 0, 0] else if wireType == FIXED64 then [0, 0, 0, 0, 0, 0, 0, 0] else [0]
  }

  function SendType(f: Field): nat {
    if f.kind.GroupKind? then LENGTH else Expected(f)
  }

  /** The field, as short as it can be. */
  function Shortest(schema: Schema, msg: string, n: nat): (b: Bytes)
    requires Sendable(schema, msg, n)
    ensures |b| <= 18
  {
    TagBytes(n, SendType(schema[msg][n])) + ShortValue(SendType(schema[msg][n]))
  }

  /** The message as field `n` of another. */
  function Wrapped(n: nat, inner: Bytes): (b: Bytes)
    requires 0 < n <= MAX_NUMBER && |inner| < 0x1_0000_0000_0000_0000
    ensures |b| <= |inner| + 20
  {
    RoomIs();
    TagBytes(n, LENGTH) + VarintBytes(|inner|, 0) + inner
  }

  /** Reading a tag and a value reads the field. */
  lemma FieldIsRead(number: nat, wireType: nat, value: Bytes, payload: Bytes, rest: Bytes)
    requires 0 < number <= MAX_NUMBER && wireType < 8
    requires ConsumeValue(wireType, value + rest) == Got(payload, |value|)
    ensures NextToken(TagBytes(number, wireType) + value + rest) ==
            Got(Token(number, wireType, payload), |TagBytes(number, wireType)| + |value|)
  {
    hide Varint, ConsumeValue, VarintBytes, Room;
    RoomIs();
    var tag := TagBytes(number, wireType);
    var b := tag + value + rest;
    assert b == tag + (value + rest) && b[|tag|..] == value + rest;
    VarintRoundTrip(8 * number + wireType, 0, value + rest);
  }

  lemma ShortIsRead(wireType: nat, rest: Bytes)
    requires wireType in {VARINT, FIXED64, LENGTH, FIXED32}
    ensures ConsumeValue(wireType, ShortValue(wireType) + rest) ==
            Got(if wireType == LENGTH then [] else ShortValue(wireType), |ShortValue(wireType)|)
  {
    var b := ShortValue(wireType) + rest;
    assert b[..|ShortValue(wireType)|] == ShortValue(wireType);
  }

  lemma InnerIsRead(inner: Bytes, rest: Bytes)
    requires |inner| < 0x1_0000_0000_0000_0000
    ensures Room(0) == 0x1_0000_0000_0000_0000
    ensures var value := VarintBytes(|inner|, 0) + inner;
      ConsumeValue(LENGTH, value + rest) == Got(inner, |value|)
  {
    hide Varint, VarintBytes;
    RoomIs();
    var size := VarintBytes(|inner|, 0);
    var b := size + inner + rest;
    assert b == size + (inner + rest);
    VarintRoundTrip(|inner|, 0, inner + rest);
    assert b[|size|..|size| + |inner|] == inner;
  }

  function ShortToken(schema: Schema, msg: string, n: nat): Token
    requires Sendable(schema, msg, n)
  {
    var wt := SendType(schema[msg][n]);
    Token(n, wt, if wt == LENGTH then [] else ShortValue(wt))
  }

  lemma ShortestIsRead(schema: Schema, msg: string, n: nat, rest: Bytes)
    requires Sendable(schema, msg, n)
    ensures NextToken(Shortest(schema, msg, n) + rest) == Got(ShortToken(schema, msg, n), |Shortest(schema, msg, n)|)
    ensures TokenOk(schema, msg, ShortToken(schema, msg, n))
  {
    hide ConsumeValue, NextToken, TagBytes, ShortValue;
    var wt := SendType(schema[msg][n]);
    ShortIsRead(wt, rest);
    FieldIsRead(n, wt, ShortValue(wt), ShortToken(schema, msg, n).payload, rest);
    EmptyAccepted(schema, schema[msg][n].message);
  }

  lemma EmptyAccepted(schema: Schema, msg: string)
    ensures Accepts(schema, msg, []) && Tokens([]) == Some([])
  {}

  lemma TokensStep(b: Bytes, t: Token, n: nat, rest: seq<Token>)
    requires b != [] && NextToken(b) == Got(t, n) && Tokens(b[n..]) == Some(rest)
    ensures Tokens(b) == Some([t] + rest)
  {}

  // ---- with one, some accepted command loses a field ---------------------------------------------------------

  /** Both fields of the oneof. */
  function Both(schema: Schema, msg: string, a: nat, b: nat): (r: Bytes)
    requires Sendable(schema, msg, a) && Sendable(schema, msg, b)
    ensures |r| <= 36
  {
    Shortest(schema, msg, a) + Shortest(schema, msg, b)
  }

  lemma BothTokens(schema: Schema, msg: string, a: nat, b: nat)
    requires Sendable(schema, msg, a) && Sendable(schema, msg, b)
    ensures Tokens(Both(schema, msg, a, b)) == Some([ShortToken(schema, msg, a), ShortToken(schema, msg, b)])
    ensures TokenOk(schema, msg, ShortToken(schema, msg, a)) && TokenOk(schema, msg, ShortToken(schema, msg, b))
  {
    hide Tokens, NextToken, ShortToken, TokenOk, Shortest;
    var first, second, all := Shortest(schema, msg, a), Shortest(schema, msg, b), Both(schema, msg, a, b);
    ShortestIsRead(schema, msg, a, second);
    ShortestIsRead(schema, msg, b, []);
    assert second + [] == second && second[|second|..] == [] && all[|first|..] == second;
    EmptyAccepted(schema, msg);
    TokensStep(second, ShortToken(schema, msg, b), |second|, []);
    assert [ShortToken(schema, msg, b)] + [] == [ShortToken(schema, msg, b)];
    TokensStep(all, ShortToken(schema, msg, a), |first|, [ShortToken(schema, msg, b)]);
    assert [ShortToken(schema, msg, a)] + [ShortToken(schema, msg, b)] == [ShortToken(schema, msg, a), ShortToken(schema, msg, b)];
  }

  /** The input is accepted, and decoding it erases a field. */
  ghost predicate Loses(schema: Schema, msg: string, b: Bytes) {
    Accepts(schema, msg, b) && !DecodesWhole(schema, msg, b)
  }

  lemma BothLoses(schema: Schema, msg: string, a: nat, b: nat)
    requires Pair(schema, msg, a, b)
    ensures Loses(schema, msg, Both(schema, msg, a, b))
  {
    hide Tokens, TokenOk, Both, Sendable;
    BothTokens(schema, msg, a, b);
    var ts := [ShortToken(schema, msg, a), ShortToken(schema, msg, b)];
    assert SameOneof(schema, msg, ts[0].number, ts[1].number);
    assert Erased(schema, msg, ts, 0);
  }

  lemma WrappedTokens(n: nat, inner: Bytes)
    requires 0 < n <= MAX_NUMBER && |inner| < 0x1_0000_0000_0000_0000
    ensures Tokens(Wrapped(n, inner)) == Some([Token(n, LENGTH, inner)])
  {
    hide Tokens, NextToken, ConsumeValue, TagBytes, VarintBytes, Room;
    InnerIsRead(inner, []);
    var value := VarintBytes(|inner|, 0) + inner;
    var b := Wrapped(n, inner);
    FieldIsRead(n, LENGTH, value, inner, []);
    assert value + [] == value && b == TagBytes(n, LENGTH) + value + [] && b[|b|..] == [];
    EmptyAccepted(map[], "");
    TokensStep(b, Token(n, LENGTH, inner), |b|, []);
    assert [Token(n, LENGTH, inner)] + [] == [Token(n, LENGTH, inner)];
  }

  lemma WrappedLoses(schema: Schema, msg: string, n: nat, inner: Bytes)
    requires Sendable(schema, msg, n) && IsMessage(schema[msg][n]) && Loses(schema, schema[msg][n].message, inner)
    requires |inner| < 0x1_0000_0000_0000_0000
    ensures Loses(schema, msg, Wrapped(n, inner)) && Tokens(Wrapped(n, inner)) == Some([Token(n, LENGTH, inner)])
  {
    hide Tokens, Wrapped;
    WrappedTokens(n, inner);
    var t := Token(n, LENGTH, inner);
    assert TokenOk(schema, msg, t) && !NestedWhole(schema, msg, t);
    assert Tokens(Wrapped(n, inner)).value[0] == t;
  }

  /** The inner input, wrapped in the fields of the path. */
  lemma {:induction false} PathLoses(schema: Schema, msg: string, path: seq<nat>, inner: Bytes) returns (b: Bytes)
    requires path != [] && Leads(schema, msg, path) && Loses(schema, Target(schema, msg, path), inner)
    requires |inner| + 20 * |path| < 0x1_0000_0000_0000_0000
    ensures Loses(schema, msg, b) && Tokens(b).Some? && |Tokens(b).value| == 1
    decreases |path|
  {
    hide Loses, Tokens, Wrapped;
    var before, n := path[..|path| - 1], path[|path| - 1];
    WrappedLoses(schema, Target(schema, msg, before), n, inner);
    b := Wrapped(n, inner);
    if before != [] { b := PathLoses(schema, msg, before, b); }
  }

  // ---- short paths --------------------------------------------------------------------------------------------

  lemma {:induction false} PrefixLeads(schema: Schema, msg: string, path: seq<nat>, i: nat)
    requires Leads(schema, msg, path) && i <= |path|
    ensures Leads(schema, msg, path[..i])
    ensures i < |path| ==> Sendable(schema, Target(schema, msg, path[..i]), path[i])
    decreases |path| - i
  {
    if i < |path| {
      PrefixLeads(schema, msg, path, i + 1);
      assert path[..i + 1][..i] == path[..i];
    } else {
      assert path[..i] == path;
    }
  }

  /** From two places that name the same message the same fields lead on. */
  lemma {:induction false} LeadsAlike(schema: Schema, msg: string, one: seq<nat>, two: seq<nat>, on: seq<nat>)
    requires Leads(schema, msg, one) && Leads(schema, msg, two) && Target(schema, msg, one) == Target(schema, msg, two)
    requires Leads(schema, msg, one + on)
    ensures Leads(schema, msg, two + on) && Target(schema, msg, two + on) == Target(schema, msg, one + on)
    decreases |on|
  {
    if on == [] {
      assert one + on == one && two + on == two;
    } else {
      var last := |on| - 1;
      assert (one + on)[..|one + on| - 1] == one + on[..last] && (two + on)[..|two + on| - 1] == two + on[..last];
      LeadsAlike(schema, msg, one, two, on[..last]);
    }
  }

  /** The message the first `i` fields lead to. */
  ghost function Visit(schema: Schema, msg: string, path: seq<nat>, i: nat): string
    requires Leads(schema, msg, path) && i <= |path|
  {
    PrefixLeads(schema, msg, path, i);
    Target(schema, msg, path[..i])
  }

  /** Leaving out a loop. */
  lemma CutLoop(schema: Schema, msg: string, path: seq<nat>, i: nat, j: nat)
    requires Leads(schema, msg, path) && 0 < i < j <= |path| && Visit(schema, msg, path, i) == Visit(schema, msg, path, j)
    ensures Leads(schema, msg, path[..i] + path[j..]) && Target(schema, msg, path[..i] + path[j..]) == Target(schema, msg, path)
  {
    hide Leads, Target;
    PrefixLeads(schema, msg, path, i);
    PrefixLeads(schema, msg, path, j);
    assert path == path[..j] + path[j..];
    LeadsAlike(schema, msg, path[..j], path[..i], path[j..]);
  }

  lemma NoLoopIsShort(schema: Schema, msg: string, path: seq<nat>)
    requires Leads(schema, msg, path) && Target(schema, msg, path) in schema
    requires forall i, j :: 0 < i < j <= |path| ==> Visit(schema, msg, path, i) != Visit(schema, msg, path, j)
    ensures |path| <= |schema|
  {
    hide Leads, Target;
    var visits := seq(|path|, i requires 0 <= i < |path| => Visit(schema, msg, path, i + 1));
    SetOfSize(visits);
    forall i | 0 <= i < |path| ensures visits[i] in schema.Keys {
      PrefixLeads(schema, msg, path, i + 1);
      if i + 1 == |path| { assert path[..i + 1] == path; }
    }
    Included(SetOf(visits), schema.Keys);
  }

  lemma Included(a: set<string>, b: set<string>)
    requires a <= b
    ensures |a| <= |b|
  {
    assert b == a + (b - a);
  }

  /** A path needs no more fields than there are messages. */
  lemma {:induction false} ShortPath(schema: Schema, msg: string, path: seq<nat>) returns (short: seq<nat>)
    requires path != [] && Leads(schema, msg, path) && Target(schema, msg, path) in schema
    ensures short != [] && |short| <= |schema| && Leads(schema, msg, short) && Target(schema, msg, short) == Target(schema, msg, path)
    decreases |path|
  {
    hide Leads, Target;
    if i, j :| 0 < i < j <= |path| && Visit(schema, msg, path, i) == Visit(schema, msg, path, j) {
      CutLoop(schema, msg, path, i, j);
      short := ShortPath(schema, msg, path[..i] + path[j..]);
    } else {
      NoLoopIsShort(schema, msg, path);
      short := path;
    }
  }

  // ---- exactly ------------------------------------------------------------------------------------------------

  /** More messages than this need not fit into a length prefix one inside the
      other. */
  const MAX_MESSAGES: nat := 0x100_0000_0000_0000

  /** With a oneof below the top a command is accepted of which decoding erases a
      field. */
  lemma NestedOneofErases(schema: Schema, msg: string) returns (b: Bytes)
    requires NestedOneof(schema, msg) && |schema| <= MAX_MESSAGES
    ensures Accepts(schema, msg, b) && |Tokens(b).value| == 1 && !DecodesWhole(schema, msg, b)
  {
    hide Tokens, Accepts, DecodesWhole, Leads, Target, Both;
    var path, x, y :| ReachesPair(schema, msg, path, x, y);
    var target := Target(schema, msg, path);
    var short := ShortPath(schema, msg, path);
    BothLoses(schema, target, x, y);
    b := PathLoses(schema, msg, short, Both(schema, target, x, y));
  }

  ghost predicate EachDecodesWhole(schema: Schema, msg: string) {
    forall b :: Accepts(schema, msg, b) && |Tokens(b).value| == 1 ==> DecodesWhole(schema, msg, b)
  }

  /** Every accepted command decodes whole exactly for descriptors without a
      oneof below the top. */
  lemma WholeExactlyWithoutNestedOneof(schema: Schema, msg: string)
    requires |schema| <= MAX_MESSAGES
    ensures EachDecodesWhole(schema, msg) <==> !NestedOneof(schema, msg)
  {
    hide Tokens, DecodesWhole, NestedOneof;
    if NestedOneof(schema, msg) {
      var b := NestedOneofErases(schema, msg);
    } else {
      forall b | Accepts(schema, msg, b) && |Tokens(b).value| == 1 ensures DecodesWhole(schema, msg, b) {
        AcceptedDecodesWhole(schema, msg, b);
      }
    }
  }

  // ---- the command of the log -------------------------------------------------------------------------------

  ghost predicate HasMessage(schema: Schema, msg: string, n: nat, message: string) {
    Known(schema, msg, n) && schema[msg][n].kind.MessageKind? && schema[msg][n].message == message
  }

  /** The part of the RaftCommand descriptor that leads to the action of an
      artifact disposition, a oneof of messages. */
  ghost predicate HasDisposition(schema: Schema) {
    && HasMessage(schema, "RaftCommand", 28, "ArtifactDispositionCmd")
    && HasMessage(schema, "ArtifactDispositionCmd", 1, "ArtifactDispositionCommandV1")
    && HasMessage(schema, "ArtifactDispositionCommandV1", 7, "ArtifactDispositionActionV1")
    && HasMessage(schema, "ArtifactDispositionActionV1", 1, "ArtifactDispositionBindPolicyV1")
    && HasMessage(schema, "ArtifactDispositionActionV1", 12, "ArtifactDispositionGrantReservationV1")
    && SameOneof(schema, "ArtifactDispositionActionV1", 1, 12)
  }

  lemma DispositionIsNested(schema: Schema)
    requires HasDisposition(schema)
    ensures NestedOneof(schema, "RaftCommand")
  {
    hide Leads, Target;
    EmptyLeads(schema, "RaftCommand");
    LeadsOn(schema, "RaftCommand", [], 28);
    assert [] + [28] == [28];
    LeadsOn(schema, "RaftCommand", [28], 1);
    assert [28] + [1] == [28, 1];
    LeadsOn(schema, "RaftCommand", [28, 1], 7);
    assert [28, 1] + [7] == [28, 1, 7];
    assert ReachesPair(schema, "RaftCommand", [28, 1, 7], 1, 12);
  }

  lemma EmptyLeads(schema: Schema, msg: string)
    ensures Leads(schema, msg, []) && Target(schema, msg, []) == msg
  {}

  /** The log accepts a command with two disposition actions, and decoding keeps
      one of them. */
  lemma RaftCommandLosesAction(schema: Schema) returns (b: Bytes)
    requires HasDisposition(schema) && |schema| <= MAX_MESSAGES
    ensures Accepts(schema, "RaftCommand", b) && |Tokens(b).value| == 1 && !DecodesWhole(schema, "RaftCommand", b)
  {
    hide Tokens, Accepts, DecodesWhole, NestedOneof;
    DispositionIsNested(schema);
    b := NestedOneofErases(schema, "RaftCommand");
  }
}
