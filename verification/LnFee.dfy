/** Who pays no service fee: a transaction each of whose inputs spends a
    Lightning contract, or a coin that qualifies within two hops. */
module LnFee {
  import opened Types

  const MAX_DEPTH: nat := 2
  const MAX_INPUTS: nat := 25
  const MAX_FETCHES: nat := 60

  // ------------------------------------------------------------- the scripts

  /** A decoded script instruction; `Undecodable` ends a malformed script. */
  datatype Instruction = Opcode(code: nat) | PushBytes(len: nat) | Undecodable

  type Script = seq<Instruction>

  /** What one instruction of a template may be. */
  datatype T = Op(code: nat) | Push(len: nat) | Num

  const OP_1 := 0x51
  const OP_2 := 0x52
  const OP_16 := 0x60
  const OP_IF := 0x63
  const OP_NOTIF := 0x64
  const OP_ELSE := 0x67
  const OP_ENDIF := 0x68
  const OP_IFDUP := 0x73
  const OP_DROP := 0x75
  const OP_DUP := 0x76
  const OP_SWAP := 0x7c
  const OP_SIZE := 0x82
  const OP_EQUAL := 0x87
  const OP_EQUALVERIFY := 0x88
  const OP_HASH160 := 0xa9
  const OP_CHECKSIG := 0xac
  const OP_CHECKSIGVERIFY := 0xad
  const OP_CHECKMULTISIG := 0xae
  const OP_CLTV := 0xb1
  const OP_CSV := 0xb2

  const FUNDING: seq<T> := [Op(OP_2), Push(33), Push(33), Op(OP_2), Op(OP_CHECKMULTISIG)]

  const KEYED_ANCHOR: seq<T> := [Push(33), Op(OP_CHECKSIG), Op(OP_IFDUP), Op(OP_NOTIF), Op(OP_16), Op(OP_CSV),
                                 Op(OP_ENDIF)]

  const TO_REMOTE_ANCHORS: seq<T> := [Push(33), Op(OP_CHECKSIGVERIFY), Op(OP_1), Op(OP_CSV)]

  const REVOKEABLE: seq<T> :=
    [Op(OP_IF), Push(33), Op(OP_ELSE), Num, Op(OP_CSV), Op(OP_DROP), Push(33), Op(OP_ENDIF), Op(OP_CHECKSIG)]

  const ANCHORS_HTLC_SUFFIX: seq<T> := [Op(OP_1), Op(OP_CSV), Op(OP_DROP)]

  const OFFERED_HTLC: seq<T> :=
    [Op(OP_DUP), Op(OP_HASH160), Push(20), Op(OP_EQUAL), Op(OP_IF), Op(OP_CHECKSIG), Op(OP_ELSE),
     Push(33), Op(OP_SWAP), Op(OP_SIZE), Push(1), Op(OP_EQUAL), Op(OP_NOTIF), Op(OP_DROP), Op(OP_2), Op(OP_SWAP),
     Push(33), Op(OP_2), Op(OP_CHECKMULTISIG), Op(OP_ELSE), Op(OP_HASH160), Push(20), Op(OP_EQUALVERIFY),
     Op(OP_CHECKSIG), Op(OP_ENDIF)]

  const RECEIVED_HTLC: seq<T> :=
    [Op(OP_DUP), Op(OP_HASH160), Push(20), Op(OP_EQUAL), Op(OP_IF), Op(OP_CHECKSIG), Op(OP_ELSE),
     Push(33), Op(OP_SWAP), Op(OP_SIZE), Push(1), Op(OP_EQUAL), Op(OP_IF), Op(OP_HASH160), Push(20), Op(OP_EQUALVERIFY),
     Op(OP_2), Op(OP_SWAP), Push(33), Op(OP_2), Op(OP_CHECKMULTISIG), Op(OP_ELSE), Op(OP_DROP), Num, Op(OP_CLTV),
     Op(OP_DROP), Op(OP_CHECKSIG), Op(OP_ENDIF)]

  const END: seq<T> := [Op(OP_ENDIF)]

  predicate MatchesOne(t: T, ins: Instruction) {
    match (t, ins)
    case (Op(o), Opcode(got)) => got == o
    case (Push(n), PushBytes(len)) => len == n
    case (Num, Opcode(got)) => OP_1 <= got <= OP_16
    case (Num, PushBytes(len)) => 1 <= len <= 5
    case _ => false
  }

  /** The script is the template, instruction by instruction. */
  predicate Fits(script: Script, template: seq<T>) {
    |script| == |template| && forall i :: 0 <= i < |script| ==> MatchesOne(template[i], script[i])
  }

  function Flatten(parts: seq<seq<T>>): seq<T> {
    if parts == [] then [] else Flatten(Init(parts)) + Last(parts)
  }

  /** Decides `Fits` for the template that `parts` spell out in a row. */
  method Matches(script: Script, parts: seq<seq<T>>) returns (r: bool)
    ensures r <==> Fits(script, Flatten(parts))
  {
    var want := Flatten(parts);
    var k := 0;
    for i := 0 to |script|
      invariant k == i <= |want|
      invariant forall j :: 0 <= j < i ==> MatchesOne(want[j], script[j])
    {
      if script[i] == Undecodable {
        return false;
      }
      if k == |want| {
        return false;
      }
      if !MatchesOne(want[k], script[i]) {
        return false;
      }
      k := k + 1;
    }
    r := k == |want|;
  }

  /** The contract scripts of BOLT 3, sections "Funding Transaction Output" and
      "Commitment Transaction Outputs". */
  datatype Kind = Funding | KeyedAnchor | ToRemote | Revokeable | Offered(anchors: bool) | Received(anchors: bool)

  function Template(k: Kind): seq<T> {
    match k
    case Funding => FUNDING
    case KeyedAnchor => KEYED_ANCHOR
    case ToRemote => TO_REMOTE_ANCHORS
    case Revokeable => REVOKEABLE
    case Offered(anchors) => OFFERED_HTLC + (if anchors then ANCHORS_HTLC_SUFFIX else []) + END
    case Received(anchors) => RECEIVED_HTLC + (if anchors then ANCHORS_HTLC_SUFFIX else []) + END
  }

  ghost predicate IsLnScript(script: Script) {
    exists k: Kind :: Fits(script, Template(k))
  }

  lemma {:induction false} FlattenFew(a: seq<T>, b: seq<T>, c: seq<T>)
    ensures Flatten([a]) == a && Flatten([a, b]) == a + b && Flatten([a, b, c]) == a + b + c
  {
    assert Init([a]) == [] && Init([a, b]) == [a] && Init([a, b, c]) == [a, b];
  }

  method LnScript(script: Script) returns (r: bool)
    ensures r <==> IsLnScript(script)
  {
    FlattenFew(FUNDING, [], []);
    FlattenFew(KEYED_ANCHOR, [], []);
    FlattenFew(TO_REMOTE_ANCHORS, [], []);
    FlattenFew(REVOKEABLE, [], []);
    FlattenFew(OFFERED_HTLC, END, []);
    FlattenFew(OFFERED_HTLC, ANCHORS_HTLC_SUFFIX, END);
    FlattenFew(RECEIVED_HTLC, END, []);
    FlattenFew(RECEIVED_HTLC, ANCHORS_HTLC_SUFFIX, END);
    var funding := Matches(script, [FUNDING]);
    var anchor := Matches(script, [KEYED_ANCHOR]);
    var remote := Matches(script, [TO_REMOTE_ANCHORS]);
    var revokeable := Matches(script, [REVOKEABLE]);
    var offered := Matches(script, [OFFERED_HTLC, ANCHORS_HTLC_SUFFIX, END]);
    var offeredPlain := Matches(script, [OFFERED_HTLC, END]);
    var received := Matches(script, [RECEIVED_HTLC, ANCHORS_HTLC_SUFFIX, END]);
    var receivedPlain := Matches(script, [RECEIVED_HTLC, END]);
    KindsAre(script);
    r := funding || anchor || remote || revokeable || offered || offeredPlain || received || receivedPlain;
  }

  lemma {:induction false} KindsAre(script: Script)
    ensures IsLnScript(script) <==>
            || Fits(script, FUNDING) || Fits(script, KEYED_ANCHOR) || Fits(script, TO_REMOTE_ANCHORS) ||
               Fits(script, REVOKEABLE)
            || Fits(script, OFFERED_HTLC + ANCHORS_HTLC_SUFFIX + END) || Fits(script, OFFERED_HTLC + END)
            || Fits(script, RECEIVED_HTLC + ANCHORS_HTLC_SUFFIX + END) || Fits(script, RECEIVED_HTLC + END)
  {
    hide Fits;
    assert OFFERED_HTLC + [] + END == OFFERED_HTLC + END && RECEIVED_HTLC + [] + END == RECEIVED_HTLC + END;
    assert Template(Funding) == FUNDING && Template(KeyedAnchor) == KEYED_ANCHOR &&
           Template(ToRemote) == TO_REMOTE_ANCHORS && Template(Revokeable) == REVOKEABLE;
    assert Template(Offered(true)) == OFFERED_HTLC + ANCHORS_HTLC_SUFFIX + END &&
           Template(Offered(false)) == OFFERED_HTLC + END;
    assert Template(Received(true)) == RECEIVED_HTLC + ANCHORS_HTLC_SUFFIX + END &&
           Template(Received(false)) == RECEIVED_HTLC + END;
  }

  /** The templates do not overlap: a script is at most one kind of contract. */
  lemma {:induction false} OneKind(script: Script, a: Kind, b: Kind)
    requires Fits(script, Template(a)) && Fits(script, Template(b))
    ensures a == b
  {
    assert |Template(a)| == |Template(b)|;
    assert Template(Offered(true))[12] == Op(OP_NOTIF) && Template(Received(false))[12] == Op(OP_IF);
  }

  // ------------------------------------------- the scripts, instruction by instruction

  /** A delay or an expiry: one of the sixteen small numbers, or 1 to 5 bytes. */
  predicate IsNumber(ins: Instruction) {
    match ins
    case Opcode(code) => 81 <= code <= 96
    case PushBytes(len) => len in {1, 2, 3, 4, 5}
    case Undecodable => false
  }

  /** BOLT 3, "Funding Transaction Output". */
  const FUNDING_SCRIPT: Script := [Opcode(82), PushBytes(33), PushBytes(33), Opcode(82), Opcode(174)]

  /** BOLT 3, "to_local_anchor and to_remote_anchor Output". */
  const ANCHOR_SCRIPT: Script :=
    [PushBytes(33), Opcode(172), Opcode(115), Opcode(100), Opcode(96), Opcode(178), Opcode(104)]

  /** BOLT 3, "to_remote Output", with anchors. */
  const REMOTE_SCRIPT: Script := [PushBytes(33), Opcode(173), Opcode(81), Opcode(178)]

  /** BOLT 3, "to_local Output". */
  function RevokeableScript(delay: Instruction): Script {
    [Opcode(99), PushBytes(33), Opcode(103), delay, Opcode(178), Opcode(117), PushBytes(33), Opcode(104), Opcode(172)]
  }

  /** What anchor channels add before the last instruction of an HTLC script. */
  function AnchorsEnd(anchors: bool): Script {
    if anchors then [Opcode(81), Opcode(178), Opcode(117), Opcode(104)] else [Opcode(104)]
  }

  /** BOLT 3, "Offered HTLC Outputs". */
  function OfferedScript(anchors: bool): Script {
    [Opcode(118), Opcode(169), PushBytes(20), Opcode(135), Opcode(99), Opcode(172), Opcode(103),
     PushBytes(33), Opcode(124), Opcode(130), PushBytes(1), Opcode(135), Opcode(100), Opcode(117), Opcode(82),
     Opcode(124), PushBytes(33), Opcode(82), Opcode(174), Opcode(103), Opcode(169), PushBytes(20), Opcode(136),
     Opcode(172), Opcode(104)] + AnchorsEnd(anchors)
  }

  /** BOLT 3, "Received HTLC Outputs". */
  function ReceivedScript(expiry: Instruction, anchors: bool): Script {
    [Opcode(118), Opcode(169), PushBytes(20), Opcode(135), Opcode(99), Opcode(172), Opcode(103),
     PushBytes(33), Opcode(124), Opcode(130), PushBytes(1), Opcode(135), Opcode(99), Opcode(169), PushBytes(20),
     Opcode(136), Opcode(82), Opcode(124), PushBytes(33), Opcode(82), Opcode(174), Opcode(103), Opcode(117), expiry,
     Opcode(177), Opcode(117), Opcode(172), Opcode(104)] + AnchorsEnd(anchors)
  }

  function Written(t: T, number: Instruction): Instruction {
    match t
    case Op(o) => Opcode(o)
    case Push(n) => PushBytes(n)
    case Num => number
  }

  /** `template` with `number` for its number. */
  function Instance(template: seq<T>, number: Instruction): Script {
    seq(|template|, i requires 0 <= i < |template| => Written(template[i], number))
  }

  /** A template with its one number at `k`, if it has any, fits its instances. */
  lemma {:induction false} FitsInstances(script: Script, template: seq<T>, k: nat)
    requires k < |template| && forall i :: 0 <= i < |template| && template[i] == Num ==> i == k
    ensures Fits(script, template) <==> exists n :: IsNumber(n) && script == Instance(template, n)
  {
    if Fits(script, template) {
      var n := if template[k] == Num then script[k] else Opcode(81);
      assert MatchesOne(template[k], script[k]);
      assert script == Instance(template, n);
    }
  }

  lemma {:induction false} RevokeableInstance(n: Instruction)
    ensures Instance(REVOKEABLE, n) == RevokeableScript(n)
  {
  }

  lemma {:induction false} FixedInstances(n: Instruction)
    ensures Instance(FUNDING, n) == FUNDING_SCRIPT && Instance(KEYED_ANCHOR, n) == ANCHOR_SCRIPT
    ensures Instance(TO_REMOTE_ANCHORS, n) == REMOTE_SCRIPT
  {
  }

  lemma {:induction false} OfferedInstance(anchors: bool, n: Instruction)
    ensures Instance(Template(Offered(anchors)), n) == OfferedScript(anchors)
  {
  }

  lemma {:induction false} ReceivedInstance(anchors: bool, n: Instruction)
    ensures Instance(Template(Received(anchors)), n) == ReceivedScript(n, anchors)
  {
  }

  /** The script `k` writes out, with `n` for its number if it has one. */
  function ScriptOf(k: Kind, n: Instruction): Script {
    match k
    case Funding => FUNDING_SCRIPT
    case KeyedAnchor => ANCHOR_SCRIPT
    case ToRemote => REMOTE_SCRIPT
    case Revokeable => RevokeableScript(n)
    case Offered(anchors) => OfferedScript(anchors)
    case Received(anchors) => ReceivedScript(n, anchors)
  }

  lemma {:induction false} TemplateInstance(k: Kind, n: Instruction)
    ensures Instance(Template(k), n) == ScriptOf(k, n)
  {
    hide Instance, OfferedScript, ReceivedScript, RevokeableScript;
    FixedInstances(n);
    RevokeableInstance(n);
    if k.Offered? {
      OfferedInstance(k.anchors, n);
    } else if k.Received? {
      ReceivedInstance(k.anchors, n);
    }
  }

  lemma {:induction false} NumberAt(k: Kind) returns (at: nat)
    ensures at < |Template(k)| && forall i :: 0 <= i < |Template(k)| && Template(k)[i] == Num ==> i == at
  {
    at := if k == Revokeable then 3 else if k.Received? then 23 else 0;
  }

  lemma {:induction false} KindFits(script: Script, k: Kind)
    ensures Fits(script, Template(k)) <==> exists n :: IsNumber(n) && script == ScriptOf(k, n)
  {
    hide Fits, IsNumber, ScriptOf, Template, Instance;
    var at := NumberAt(k);
    FitsInstances(script, Template(k), at);
    forall n: Instruction
      ensures Instance(Template(k), n) == ScriptOf(k, n)
    {
      TemplateInstance(k, n);
    }
    if Fits(script, Template(k)) {
      var n :| IsNumber(n) && script == Instance(Template(k), n);
      assert script == ScriptOf(k, n);
    }
  }

  /** The contract scripts written out, as BOLT 3 lists them. */
  lemma {:induction false} LnScriptsAre(script: Script)
    ensures IsLnScript(script) <==> exists k, n :: IsNumber(n) && script == ScriptOf(k, n)
  {
    hide Fits, IsNumber, ScriptOf, Template;
    if k: Kind :| Fits(script, Template(k)) {
      KindFits(script, k);
      var n :| IsNumber(n) && script == ScriptOf(k, n);
    }
    if k, n :| IsNumber(n) && script == ScriptOf(k, n) {
      KindFits(script, k);
    }
  }

  // ---------------------------------------------------- the plain definition

  datatype Input = Input(prev: Txid, stack: seq<Script>)

  datatype Tx = Tx(inputs: seq<Input>, coinbase: bool)

  ghost predicate IsLnSpend(i: Input) {
    |i.stack| >= 2 && IsLnScript(Last(i.stack))
  }

  /** The transactions there are, and which of them paid the fee. */
  datatype World = World(fetch: Txid -> Option<Tx>, paysFee: Tx -> bool)

  ghost predicate Direct(w: World, tx: Tx) {
    (exists i :: 0 <= i < |tx.inputs| && IsLnSpend(tx.inputs[i])) || w.paysFee(tx)
  }

  predicate Descends(tx: Tx, depth: nat) {
    depth > 1 && !tx.coinbase && |tx.inputs| <= MAX_INPUTS
  }

  /** A coin qualifies: its transaction spends a Lightning contract or paid the fee,
      or, with a hop left, spends only qualifying coins. */
  ghost predicate Qualifies(w: World, txid: Txid, depth: nat)
    decreases depth, 0
  {
    var tx := w.fetch(txid);
    tx.Some? && (Direct(w, tx.value) || (Descends(tx.value, depth) && AllQualify(w, tx.value.inputs, depth - 1)))
  }

  ghost predicate AllQualify(w: World, inputs: seq<Input>, depth: nat)
    decreases depth, |inputs| + 1
  {
    inputs == [] || (Qualifies(w, inputs[0].prev, depth) && AllQualify(w, inputs[1..], depth))
  }

  ghost predicate AllExempt(w: World, inputs: seq<Input>) {
    inputs == [] || ((IsLnSpend(inputs[0]) || Qualifies(w, inputs[0].prev, MAX_DEPTH)) && AllExempt(w, inputs[1..]))
  }

  /** The plain definition, with no cache and no fetch limit. */
  ghost predicate Exempt(w: World, tx: Tx) {
    0 < |tx.inputs| <= MAX_INPUTS && AllExempt(w, tx.inputs)
  }

  // ------------------------------------------------------ the same, unfolded

  /** A transaction the node has with a Lightning input, or that paid the fee. */
  ghost predicate Lightning(w: World, txid: Txid) {
    var tx := w.fetch(txid);
    tx.Some? && (w.paysFee(tx.value) || exists i :: 0 <= i < |tx.value.inputs| && IsLnSpend(tx.value.inputs[i]))
  }

  /** A transaction that spends only coins of such transactions. */
  ghost predicate SpendsLightning(w: World, txid: Txid) {
    var tx := w.fetch(txid);
    && tx.Some? && !tx.value.coinbase && |tx.value.inputs| <= 25
    && forall i :: 0 <= i < |tx.value.inputs| ==> Lightning(w, tx.value.inputs[i].prev)
  }

  lemma {:induction false} AllQualifyOne(w: World, inputs: seq<Input>)
    ensures AllQualify(w, inputs, 1) <==> forall i :: 0 <= i < |inputs| ==> Lightning(w, inputs[i].prev)
    decreases |inputs|
  {
    hide IsLnSpend;
    if inputs != [] {
      AllQualifyOne(w, inputs[1..]);
      assert forall i :: 0 < i < |inputs| ==> inputs[i] == inputs[1..][i - 1];
      assert Qualifies(w, inputs[0].prev, 1) <==> Lightning(w, inputs[0].prev);
    }
  }

  lemma {:induction false} QualifiesTwo(w: World, txid: Txid)
    ensures Qualifies(w, txid, 2) <==> Lightning(w, txid) || SpendsLightning(w, txid)
  {
    hide IsLnSpend, AllQualify;
    if w.fetch(txid).Some? {
      AllQualifyOne(w, w.fetch(txid).value.inputs);
    }
  }

  lemma {:induction false} AllExemptIs(w: World, inputs: seq<Input>)
    ensures AllExempt(w, inputs) <==>
            forall i :: 0 <= i < |inputs| ==>
                          IsLnSpend(inputs[i]) || Lightning(w, inputs[i].prev) || SpendsLightning(w, inputs[i].prev)
  {
    hide IsLnSpend, Lightning, SpendsLightning, Qualifies;
    if inputs != [] {
      AllExemptIs(w, inputs[1..]);
      assert forall i :: 0 < i < |inputs| ==> inputs[i] == inputs[1..][i - 1];
      QualifiesTwo(w, inputs[0].prev);
    }
  }

  /** The exemption with no recursion: 1 to 25 inputs, each a contract spend, or a
      coin of a Lightning or fee-paying transaction, or of one that spends only
      such coins. */
  lemma {:induction false} ExemptIs(w: World, tx: Tx)
    ensures Exempt(w, tx) <==>
            && 1 <= |tx.inputs| <= 25
            && forall i :: 0 <= i < |tx.inputs| ==>
                             IsLnSpend(tx.inputs[i]) || Lightning(w, tx.inputs[i].prev) ||
                             SpendsLightning(w, tx.inputs[i].prev)
  {
    hide IsLnSpend, Lightning, SpendsLightning, AllExempt;
    AllExemptIs(w, tx.inputs);
  }

  /** The parents the plain left-to-right evaluation needs. */
  ghost function Needs(w: World, txid: Txid, depth: nat): set<Txid>
    decreases depth, 0
  {
    var tx := w.fetch(txid);
    {txid} + (if tx.Some? && !Direct(w, tx.value) &&
                 Descends(tx.value, depth) then NeedsAll(w, tx.value.inputs, depth - 1) else {})
  }

  ghost function NeedsAll(w: World, inputs: seq<Input>, depth: nat): set<Txid>
    decreases depth, |inputs| + 1
  {
    if inputs == [] then {}
    else Needs(w, inputs[0].prev, depth) +
         (if Qualifies(w, inputs[0].prev, depth) then NeedsAll(w, inputs[1..], depth) else {})
  }

  ghost function NeedsTop(w: World, inputs: seq<Input>): set<Txid> {
    if inputs == [] then {}
    else if IsLnSpend(inputs[0]) then NeedsTop(w, inputs[1..])
    else Needs(w, inputs[0].prev, MAX_DEPTH) +
         (if Qualifies(w, inputs[0].prev, MAX_DEPTH) then NeedsTop(w, inputs[1..]) else {})
  }

  /** The parents of the inputs that are no contract spends, and the parents of
      those of them that are not Lightning themselves. */
  ghost function Asked(w: World, inputs: seq<Input>): set<Txid> {
    var parents := set i | 0 <= i < |inputs| && !IsLnSpend(inputs[i]) :: inputs[i].prev;
    parents + set p, j | p in parents && !Lightning(w, p) && w.fetch(p).Some? && 0 <= j < |w.fetch(p).value.inputs|
      :: w.fetch(p).value.inputs[j].prev
  }

  lemma {:induction false} NeedsAllOne(w: World, inputs: seq<Input>)
    requires AllQualify(w, inputs, 1)
    ensures NeedsAll(w, inputs, 1) == set j | 0 <= j < |inputs| :: inputs[j].prev
    decreases |inputs|
  {
    hide Direct;
    if inputs != [] {
      NeedsAllOne(w, inputs[1..]);
      assert forall j :: 0 < j < |inputs| ==> inputs[j] == inputs[1..][j - 1];
      assert Needs(w, inputs[0].prev, 1) == {inputs[0].prev};
      assert (set j | 0 <= j < |inputs| :: inputs[j].prev) ==
             {inputs[0].prev} + set j | 0 <= j < |inputs[1..]| :: inputs[1..][j].prev;
    }
  }

  lemma {:induction false} NeedsTwo(w: World, p: Txid)
    requires Qualifies(w, p, 2)
    ensures Needs(w, p, 2) == {p} + if Lightning(w, p) then {}
                              else set j | 0 <= j < |w.fetch(p).value.inputs| :: w.fetch(p).value.inputs[j].prev
  {
    hide IsLnSpend, AllQualify, NeedsAll;
    var inputs := w.fetch(p).value.inputs;
    if !Lightning(w, p) {
      NeedsAllOne(w, inputs);
    }
  }

  lemma {:induction false} AskedOne(w: World, inputs: seq<Input>)
    requires inputs != []
    ensures Asked(w, inputs) ==
            Asked(w, inputs[1..]) +
            if IsLnSpend(inputs[0]) then {}
            else {inputs[0].prev} +
                 if Lightning(w, inputs[0].prev) || w.fetch(inputs[0].prev).None? then {}
                 else set j | 0 <= j < |w.fetch(inputs[0].prev).value.inputs|
                        :: w.fetch(inputs[0].prev).value.inputs[j].prev
  {
    hide IsLnSpend, Lightning;
    assert forall i :: 0 < i < |inputs| ==> inputs[i] == inputs[1..][i - 1];
    var rest := set i | 0 <= i < |inputs[1..]| && !IsLnSpend(inputs[1..][i]) :: inputs[1..][i].prev;
    assert (set i | 0 <= i < |inputs| && !IsLnSpend(inputs[i]) :: inputs[i].prev) ==
           rest + if IsLnSpend(inputs[0]) then {} else {inputs[0].prev};
  }

  /** What an exempt transaction's check asks for. */
  lemma {:induction false} NeedsAre(w: World, inputs: seq<Input>)
    requires AllExempt(w, inputs)
    ensures NeedsTop(w, inputs) == Asked(w, inputs)
  {
    if inputs == [] {
    } else {
      hide IsLnSpend, Lightning, Qualifies, Needs, Asked;
      NeedsAre(w, inputs[1..]);
      AskedOne(w, inputs);
      if !IsLnSpend(inputs[0]) {
        NeedsTwo(w, inputs[0].prev);
        QualifiesTwo(w, inputs[0].prev);
        QualifiesIsFetched(w, inputs[0].prev);
      }
    }
  }

  lemma {:induction false} QualifiesIsFetched(w: World, p: Txid)
    requires Qualifies(w, p, 2)
    ensures w.fetch(p).Some?
  {
  }

  // --------------------------------------------- the memoised, capped search

  class Ctx {
    const w: World
    var cache: map<Txid, Option<Tx>>
    var fetches: nat

    constructor (w: World)
      ensures Valid() && this.w == w && cache == map[]
    {
      this.w := w;
      cache, fetches := map[], 0;
    }

    ghost predicate Valid()
      reads this
    {
      && fetches == |cache.Keys| <= MAX_FETCHES
      && forall id :: id in cache ==> cache[id] == w.fetch(id)
    }

    method Get(txid: Txid) returns (tx: Option<Tx>)
      requires Valid()
      modifies this
      ensures Valid()
      ensures |old(cache).Keys + {txid}| <= MAX_FETCHES ==>
                tx == w.fetch(txid) && cache.Keys == old(cache).Keys + {txid}
      ensures |old(cache).Keys + {txid}| > MAX_FETCHES ==> tx == None && cache == old(cache)
    {
      if txid in cache {
        assert cache.Keys + {txid} == cache.Keys;
        return cache[txid];
      }
      assert |cache.Keys + {txid}| == |cache.Keys| + 1;
      if fetches >= MAX_FETCHES {
        return None;
      }
      fetches := fetches + 1;
      tx := w.fetch(txid);
      cache := cache[txid := tx];
      assert cache.Keys == old(cache).Keys + {txid};
    }

    /** The coin qualifies, as long as its search fits the fetches left. */
    method CoinQualifies(txid: Txid, depth: nat) returns (r: bool)
      requires Valid()
      modifies this
      ensures Valid() && old(cache).Keys <= cache.Keys
      ensures |old(cache).Keys + Needs(w, txid, depth)| <= MAX_FETCHES ==>
                r == Qualifies(w, txid, depth) && cache.Keys == old(cache).Keys + Needs(w, txid, depth)
      ensures |old(cache).Keys + Needs(w, txid, depth)| > MAX_FETCHES ==> !r
      decreases depth, 0
    {
      hide IsLnSpend, Needs, Qualifies, NeedsAll, AllQualify;
      CoinStep(w, txid, depth);
      ghost var all := cache.Keys + Needs(w, txid, depth);
      SubsetSize(cache.Keys + {txid}, all);
      var got := Get(txid);
      if got.None? {
        return false;
      }
      var parent := got.value;
      var ln := AnyLnSpend(parent.inputs);
      if ln || w.paysFee(parent) {
        return true;
      }
      if !(depth > 1 && !parent.coinbase && |parent.inputs| <= MAX_INPUTS) {
        return false;
      }
      assert all == cache.Keys + NeedsAll(w, parent.inputs, depth - 1);
      r := AllCoins(parent.inputs, depth - 1);
    }

    method AllCoins(inputs: seq<Input>, depth: nat) returns (r: bool)
      requires Valid()
      modifies this
      ensures Valid() && old(cache).Keys <= cache.Keys
      ensures |old(cache).Keys + NeedsAll(w, inputs, depth)| <= MAX_FETCHES ==>
                r == AllQualify(w, inputs, depth) && cache.Keys == old(cache).Keys + NeedsAll(w, inputs, depth)
      ensures |old(cache).Keys + NeedsAll(w, inputs, depth)| > MAX_FETCHES ==> !r
      decreases depth, |inputs| + 1
    {
      hide Qualifies, Needs, NeedsAll, AllQualify;
      ghost var all := cache.Keys + NeedsAll(w, inputs, depth);
      var k := 0;
      assert inputs[0..] == inputs;
      while k < |inputs|
        invariant 0 <= k <= |inputs| && Valid() && old(cache).Keys <= cache.Keys
        invariant all == cache.Keys + NeedsAll(w, inputs[k..], depth)
        invariant AllQualify(w, inputs, depth) == AllQualify(w, inputs[k..], depth)
      {
        AllStep(w, inputs, k, depth);
        SubsetSize(cache.Keys + Needs(w, inputs[k].prev, depth), all);
        ghost var before := cache.Keys;
        var ok := CoinQualifies(inputs[k].prev, depth);
        assert ok ==> cache.Keys == before + Needs(w, inputs[k].prev, depth);
        if !ok {
          assert |all| <= MAX_FETCHES ==> !Qualifies(w, inputs[k].prev, depth) && all == cache.Keys;
          return false;
        }
        k := k + 1;
      }
      AllEnd(w, inputs, depth);
      assert all == cache.Keys;
      r := true;
    }

    /** The inputs of the transaction itself: a contract spend needs no parent. */
    method AllInputs(inputs: seq<Input>) returns (r: bool)
      requires Valid()
      modifies this
      ensures Valid()
      ensures r <==> AllExempt(w, inputs) && |old(cache).Keys + NeedsTop(w, inputs)| <= MAX_FETCHES
      ensures r ==> cache.Keys == old(cache).Keys + NeedsTop(w, inputs)
    {
      hide Qualifies, Needs, NeedsTop, IsLnSpend, AllExempt;
      ghost var all := cache.Keys + NeedsTop(w, inputs);
      var k := 0;
      assert inputs[0..] == inputs;
      while k < |inputs|
        invariant 0 <= k <= |inputs| && Valid()
        invariant all == cache.Keys + NeedsTop(w, inputs[k..])
        invariant AllExempt(w, inputs) == AllExempt(w, inputs[k..])
      {
        TopStep(w, inputs, k);
        var ln := LnSpend(inputs[k]);
        if !ln {
          SubsetSize(cache.Keys + Needs(w, inputs[k].prev, MAX_DEPTH), all);
          var ok := CoinQualifies(inputs[k].prev, MAX_DEPTH);
          if !ok {
            return false;
          }
        }
        k := k + 1;
      }
      AllEnd(w, inputs, 0);
      assert all == cache.Keys;
      r := true;
    }
  }

  lemma {:induction false} CoinStep(w: World, txid: Txid, depth: nat)
    ensures var tx := w.fetch(txid);
            if tx.None? then Needs(w, txid, depth) == {txid} && !Qualifies(w, txid, depth)
            else if Direct(w, tx.value) then Needs(w, txid, depth) == {txid} && Qualifies(w, txid, depth)
            else if !Descends(tx.value, depth) then Needs(w, txid, depth) == {txid} && !Qualifies(w, txid, depth)
            else Needs(w, txid, depth) == {txid} + NeedsAll(w, tx.value.inputs, depth - 1) &&
                 Qualifies(w, txid, depth) == AllQualify(w, tx.value.inputs, depth - 1)
  {
    hide Direct, NeedsAll, AllQualify;
  }

  lemma {:induction false} AllStep(w: World, inputs: seq<Input>, k: nat, depth: nat)
    requires k < |inputs|
    ensures AllQualify(w, inputs[k..], depth) ==
            (Qualifies(w, inputs[k].prev, depth) && AllQualify(w, inputs[k + 1..], depth))
    ensures NeedsAll(w, inputs[k..], depth) ==
            Needs(w, inputs[k].prev, depth) +
            (if Qualifies(w, inputs[k].prev, depth) then NeedsAll(w, inputs[k + 1..], depth) else {})
  {
    hide Qualifies, Needs;
    assert inputs[k..][0] == inputs[k] && inputs[k..][1..] == inputs[k + 1..];
  }

  lemma {:induction false} AllEnd(w: World, inputs: seq<Input>, depth: nat)
    ensures AllQualify(w, inputs[|inputs|..], depth) && NeedsAll(w, inputs[|inputs|..], depth) == {}
    ensures NeedsTop(w, inputs[|inputs|..]) == {} && AllExempt(w, inputs[|inputs|..])
  {
  }

  lemma {:induction false} TopStep(w: World, inputs: seq<Input>, k: nat)
    requires k < |inputs|
    ensures AllExempt(w, inputs[k..]) ==
            ((IsLnSpend(inputs[k]) || Qualifies(w, inputs[k].prev, MAX_DEPTH)) && AllExempt(w, inputs[k + 1..]))
    ensures IsLnSpend(inputs[k]) ==> NeedsTop(w, inputs[k..]) == NeedsTop(w, inputs[k + 1..])
    ensures !IsLnSpend(inputs[k]) ==>
              NeedsTop(w, inputs[k..]) ==
              Needs(w, inputs[k].prev, MAX_DEPTH) +
              (if Qualifies(w, inputs[k].prev, MAX_DEPTH) then NeedsTop(w, inputs[k + 1..]) else {})
  {
    hide Qualifies, Needs, IsLnSpend;
    assert inputs[k..][0] == inputs[k] && inputs[k..][1..] == inputs[k + 1..];
  }

  /** Whether an input's witness script (its last witness item) is a Lightning
      contract script. */
  method LnSpend(i: Input) returns (r: bool)
    ensures r <==> IsLnSpend(i)
  {
    r := false;
    if |i.stack| >= 2 {
      r := LnScript(Last(i.stack));
    }
  }

  method AnyLnSpend(inputs: seq<Input>) returns (r: bool)
    ensures r <==> exists i :: 0 <= i < |inputs| && IsLnSpend(inputs[i])
  {
    for k := 0 to |inputs|
      invariant forall i :: 0 <= i < k ==> !IsLnSpend(inputs[i])
    {
      var ln := LnSpend(inputs[k]);
      if ln {
        return true;
      }
    }
    r := false;
  }

  /** The exemption: exactly the plain definition, for transactions whose
      search needs at most 60 distinct parents; never more than 60 fetches. */
  method IsExempt(w: World, tx: Tx) returns (r: bool, fetches: nat)
    ensures r <==> Exempt(w, tx) && |Asked(w, tx.inputs)| <= 60
    ensures fetches <= 60 && (r ==> fetches == |Asked(w, tx.inputs)|)
    ensures !(1 <= |tx.inputs| <= 25) ==> fetches == 0
  {
    hide Qualifies, Needs, NeedsTop, IsLnSpend, Asked, AllExempt;
    if AllExempt(w, tx.inputs) {
      NeedsAre(w, tx.inputs);
    }
    if tx.inputs == [] || |tx.inputs| > MAX_INPUTS {
      return false, 0;
    }
    var ctx := new Ctx(w);
    assert ctx.cache.Keys + NeedsTop(w, tx.inputs) == NeedsTop(w, tx.inputs);
    r := ctx.AllInputs(tx.inputs);
    fetches := ctx.fetches;
  }
}
