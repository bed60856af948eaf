/** The tip a bundle pays and the compute it is charged before simulation. */
module Scoring {
  import opened Common
  import opened Bundles
  import opened Transactions

  const EST_CU_PER_TX: u64 := 200_000

  /** What scoring depends on: the codecs, the system program and the tip accounts. */
  datatype Scorer = Scorer(
    decodeTx: Packet -> Option<Transaction>,
    decodeTransfer: seq<bv8> -> Option<u64>,
    systemProgram: Pubkey,
    tipAccounts: set<Pubkey>)

  /** Lamports an instruction pays to a tip account: it must be a system transfer whose
      second account is one. */
  function Paid(sc: Scorer, keys: seq<Pubkey>, ix: Instruction): u64 {
    var program := Get(keys, ix.programIdIndex);
    var lamports := sc.decodeTransfer(ix.data);
    var dest := if |ix.accounts| > 1 then Get(keys, ix.accounts[1]) else None;
    if program == Some(sc.systemProgram) && lamports.Some? && dest.Some? && dest.value in sc.tipAccounts
    then lamports.value else 0
  }

  /** An instruction pays its lamports if and only if it is a transfer of the system
      program to a tip account as its second account; otherwise it pays nothing. */
  lemma PaidExactly(sc: Scorer, keys: seq<Pubkey>, ix: Instruction, lamports: u64)
    requires sc.decodeTransfer(ix.data) == Some(lamports)
    ensures Paid(sc, keys, ix)
         == if && ix.programIdIndex < |keys| && keys[ix.programIdIndex] == sc.systemProgram
               && |ix.accounts| >= 2 && ix.accounts[1] < |keys| && keys[ix.accounts[1]] in sc.tipAccounts
            then lamports else 0
  {
  }

  lemma NoTransferPaysNothing(sc: Scorer, keys: seq<Pubkey>, ix: Instruction)
    requires sc.decodeTransfer(ix.data).None?
    ensures Paid(sc, keys, ix) == 0
  {
  }

  // ----- exact totals -----

  function SumPaid(sc: Scorer, keys: seq<Pubkey>, ixs: seq<Instruction>): nat {
    if ixs == [] then 0 else SumPaid(sc, keys, ixs[..|ixs| - 1]) + Paid(sc, keys, ixs[|ixs| - 1])
  }

  function PacketTip(sc: Scorer, p: Packet): nat {
    var tx := sc.decodeTx(p);
    if tx.Some? then SumPaid(sc, tx.value.keys, tx.value.instructions) else 0
  }

  function BundleTip(sc: Scorer, packets: seq<Packet>): nat {
    if packets == [] then 0 else BundleTip(sc, packets[..|packets| - 1]) + PacketTip(sc, packets[|packets| - 1])
  }

  function Capped(n: nat): u64 {
    if n > U64_MAX then U64_MAX else n
  }

  /** `(len as u64).saturating_mul(EST_CU_PER_TX)`. */
  function EstimatedCu(packets: nat): u64 {
    Capped(packets * EST_CU_PER_TX)
  }

  function Score(sc: Scorer, bundle: BundleUuid): (u64, u64) {
    (Capped(BundleTip(sc, bundle.Packets())), EstimatedCu(|bundle.Packets()|))
  }

  // ----- the saturating loops -----

  method TxTip(sc: Scorer, tx: Transaction) returns (tip: u64)
    ensures tip == Capped(SumPaid(sc, tx.keys, tx.instructions))
  {
    tip := 0;
    for i := 0 to |tx.instructions|
      invariant tip == Capped(SumPaid(sc, tx.keys, tx.instructions[..i]))
    {
      var ix := tx.instructions[i];
      assert tx.instructions[..i + 1][..i] == tx.instructions[..i];
      if Get(tx.keys, ix.programIdIndex) != Some(sc.systemProgram) {
        continue;
      }
      var lamports := sc.decodeTransfer(ix.data);
      if lamports.Some? && |ix.accounts| > 1 {
        var dest := Get(tx.keys, ix.accounts[1]);
        if dest.Some? && dest.value in sc.tipAccounts {
          tip := SatAdd(tip, lamports.value);
        }
      }
    }
    assert tx.instructions[..|tx.instructions|] == tx.instructions;
  }

  method ScoreBundle(sc: Scorer, bundle: BundleUuid) returns (tip: u64, estCu: u64)
    ensures (tip, estCu) == Score(sc, bundle)
  {
    var packets := bundle.Packets();
    tip := 0;
    for i := 0 to |packets|
      invariant tip == Capped(BundleTip(sc, packets[..i]))
    {
      assert packets[..i + 1][..i] == packets[..i];
      var tx := sc.decodeTx(packets[i]);
      if tx.Some? {
        var t := TxTip(sc, tx.value);
        tip := SatAdd(tip, t);
      }
    }
    assert packets[..|packets|] == packets;
    estCu := EstimatedCu(|packets|);
  }

  // ----- order does not matter -----

  lemma {:induction false} SumPaidConcat(sc: Scorer, keys: seq<Pubkey>, a: seq<Instruction>, b: seq<Instruction>)
    ensures SumPaid(sc, keys, a + b) == SumPaid(sc, keys, a) + SumPaid(sc, keys, b)
    decreases |b|
  {
    if b == [] {
      assert a + b == a;
    } else {
      SumPaidConcat(sc, keys, a, b[..|b| - 1]);
      assert (a + b)[..|a + b| - 1] == a + b[..|b| - 1];
    }
  }

  lemma SumPaidRemove(sc: Scorer, keys: seq<Pubkey>, s: seq<Instruction>, i: nat)
    requires i < |s|
    ensures SumPaid(sc, keys, s) == SumPaid(sc, keys, s[..i] + s[i + 1..]) + Paid(sc, keys, s[i])
    ensures multiset(s) == multiset(s[..i] + s[i + 1..]) + multiset{s[i]}
  {
    AroundIndex(s, i);
    SumPaidConcat(sc, keys, s[..i] + [s[i]], s[i + 1..]);
    SumPaidConcat(sc, keys, s[..i], [s[i]]);
    SumPaidConcat(sc, keys, s[..i], s[i + 1..]);
    assert [s[i]][..0] == [];
    assert SumPaid(sc, keys, [s[i]]) == Paid(sc, keys, s[i]);
  }

  /** The tip of a transaction does not depend on the order of its instructions. */
  lemma {:induction false} InstructionOrderIrrelevant(
    sc: Scorer, keys: seq<Pubkey>, a: seq<Instruction>, b: seq<Instruction>)
    requires multiset(a) == multiset(b)
    ensures SumPaid(sc, keys, a) == SumPaid(sc, keys, b)
    decreases |a|
  {
    if a == [] {
      assert |multiset(b)| == 0;
    } else {
      var init, last := a[..|a| - 1], a[|a| - 1];
      InitLast(a);
      assert last in multiset(b);
      var i :| 0 <= i < |b| && b[i] == last;
      SumPaidRemove(sc, keys, b, i);
      assert multiset(init) == multiset(a) - multiset{last};
      InstructionOrderIrrelevant(sc, keys, init, b[..i] + b[i + 1..]);
    }
  }

  lemma {:induction false} BundleTipConcat(sc: Scorer, a: seq<Packet>, b: seq<Packet>)
    ensures BundleTip(sc, a + b) == BundleTip(sc, a) + BundleTip(sc, b)
    decreases |b|
  {
    if b == [] {
      assert a + b == a;
    } else {
      BundleTipConcat(sc, a, b[..|b| - 1]);
      assert (a + b)[..|a + b| - 1] == a + b[..|b| - 1];
    }
  }

  lemma BundleTipOne(sc: Scorer, p: Packet)
    ensures BundleTip(sc, [p]) == PacketTip(sc, p)
  {
    assert [p][..0] == [];
  }

  lemma BundleTipRemove(sc: Scorer, s: seq<Packet>, i: nat)
    requires i < |s|
    ensures BundleTip(sc, s) == BundleTip(sc, s[..i] + s[i + 1..]) + PacketTip(sc, s[i])
    ensures multiset(s) == multiset(s[..i] + s[i + 1..]) + multiset{s[i]}
  {
    AroundIndex(s, i);
    BundleTipConcat(sc, s[..i] + [s[i]], s[i + 1..]);
    BundleTipConcat(sc, s[..i], [s[i]]);
    BundleTipConcat(sc, s[..i], s[i + 1..]);
    BundleTipOne(sc, s[i]);
  }

  lemma {:induction false} PacketOrder(sc: Scorer, a: seq<Packet>, b: seq<Packet>)
    requires multiset(a) == multiset(b)
    ensures BundleTip(sc, a) == BundleTip(sc, b)
    decreases |a|
  {
    if a == [] {
      assert |multiset(b)| == 0;
    } else {
      var init, last := a[..|a| - 1], a[|a| - 1];
      InitLast(a);
      assert last in multiset(b);
      var i :| 0 <= i < |b| && b[i] == last;
      BundleTipRemove(sc, b, i);
      assert multiset(init) == multiset(a) - multiset{last};
      PacketOrder(sc, init, b[..i] + b[i + 1..]);
    }
  }

  /** The score, saturation included, does not depend on the order of the packets. */
  lemma PacketOrderIrrelevant(sc: Scorer, u: BundleUuid, v: BundleUuid)
    requires multiset(u.Packets()) == multiset(v.Packets())
    ensures Score(sc, u) == Score(sc, v)
  {
    PacketOrder(sc, u.Packets(), v.Packets());
    assert |multiset(u.Packets())| == |u.Packets()| && |multiset(v.Packets())| == |v.Packets()|;
  }

  /** A packet that does not decode pays nothing but is charged like any other. */
  lemma UndecodablePacket(sc: Scorer, u: string, packets: seq<Packet>, p: Packet)
    requires sc.decodeTx(p).None?
    ensures Score(sc, BundleUuid(u, Some(packets + [p]))).0 == Score(sc, BundleUuid(u, Some(packets))).0
    ensures Score(sc, BundleUuid(u, Some(packets + [p]))).1
         == SatAdd(Score(sc, BundleUuid(u, Some(packets))).1, EST_CU_PER_TX)
  {
    BundleTipConcat(sc, packets, [p]);
    BundleTipOne(sc, p);
  }

  /** What the parts of a bundle add: a bundle of one packet with one instruction scores
      what that instruction pays, and the score of a longer bundle is the capped sum. */
  lemma ScoreAdds(sc: Scorer, u: string, a: seq<Packet>, b: seq<Packet>)
    ensures Score(sc, BundleUuid(u, Some(a + b))).0
         == SatAdd(Score(sc, BundleUuid(u, Some(a))).0, Score(sc, BundleUuid(u, Some(b))).0)
    ensures |a| * 200_000 <= U64_MAX ==> Score(sc, BundleUuid(u, Some(a))).1 == |a| * 200_000
  {
    BundleTipConcat(sc, a, b);
  }

  lemma ScoreOne(sc: Scorer, u: string, p: Packet, tx: Transaction, ix: Instruction)
    requires sc.decodeTx(p) == Some(tx) && tx.instructions == [ix]
    ensures Score(sc, BundleUuid(u, Some([p]))).0 == Paid(sc, tx.keys, ix)
  {
    BundleTipOne(sc, p);
    assert [ix][..0] == [];
    assert SumPaid(sc, tx.keys, [ix]) == Paid(sc, tx.keys, ix);
  }
}
