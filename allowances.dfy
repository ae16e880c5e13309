/** The per-chain allowance table and the batch of `allowance` requests that
    submitting it produces. The supported chains and the token registry are
    parameters: the chain list stands for `supportedChainsId`, the registry
    for the USDC entries of `listTokenContracts`. */
module Allowances {
  import opened Js
  import opened Decimal
  import opened Uint256

  type ChainId = int

  /** The table the allowance popup edits: chain id to the typed entry. */
  type Table = map<ChainId, string>

  /** Chain id to the USDC address its token record holds; a chain without a
      record is absent, a record without a USDC address maps to `None`. */
  type TokenRegistry = map<ChainId, Option<string>>

  /** The marker a table entry holds for "no limit". */
  const Unlimited := "unlimited"

  /** The fixed spender every allowance request names. */
  const Spender := "0x0000000000000000000000000000000000000001"

  /** The set of chain ids in a chain list. */
  function ChainSet(chains: seq<ChainId>): set<ChainId> { set c | c in chains }

  /** The table a left fold over the chains builds when it writes `v` for each
      chain into an initially empty object. */
  function UniformTable(chains: seq<ChainId>, v: string): (t: Table)
    ensures t.Keys == ChainSet(chains)
    ensures forall c :: c in t ==> t[c] == v
  {
    if chains == [] then map[]
    else UniformTable(chains[..|chains| - 1], v)[chains[|chains| - 1] := v]
  }

  /** The table at start-up, after disconnecting, after "all unlimited" and
      after closing the popup: every supported chain unlimited. */
  function DefaultTable(chains: seq<ChainId>): (t: Table)
    ensures t.Keys == ChainSet(chains)
    ensures forall c :: c in t ==> t[c] == Unlimited
  {
    UniformTable(chains, Unlimited)
  }

  /** The table after "clear all": every supported chain at "0". */
  function ClearedTable(chains: seq<ChainId>): (t: Table)
    ensures t.Keys == ChainSet(chains)
    ensures forall c :: c in t ==> t[c] == "0"
  {
    UniformTable(chains, "0")
  }

  /** Editing a single entry, as the object spread `{...prev, [c]: v}` does. */
  function SetEntry(t: Table, c: ChainId, v: string): (t': Table)
    ensures t'.Keys == t.Keys + {c}
    ensures t'[c] == v
    ensures forall d :: d in t && d != c ==> t'[d] == t[d]
  {
    t[c := v]
  }

  /** An edit of a supported chain keeps the table over exactly the supported
      chains, so the table never gains or loses a row. */
  lemma SetEntryKeepsRows(chains: seq<ChainId>, t: Table, c: ChainId, v: string)
    requires t.Keys == ChainSet(chains) && c in chains
    ensures SetEntry(t, c, v).Keys == ChainSet(chains)
  {
    assert c in ChainSet(chains);
  }

  /** One `allowance` call's argument. */
  datatype AllowanceRequest = AllowanceRequest(
    tokenAddress: string, spender: string, amount: string, chainId: ChainId)

  /** The table entry for a chain, `undefined` when the chain has none. */
  function Entry(t: Table, c: ChainId): (e: Option<string>)
    ensures e.Some? <==> c in t
    ensures e.Some? ==> e.value == t[c]
  {
    if c in t then Some(t[c]) else None
  }

  /** The USDC address of a chain's token record, `None` when the record is
      missing, has none, or has the empty string. */
  function UsdcAddress(tokens: TokenRegistry, c: ChainId): (a: Option<string>)
    ensures a.Some? <==> c in tokens && Truthy(tokens[c])
    ensures a.Some? ==> Some(a.value) == tokens[c] && a.value != ""
  {
    if c in tokens && Truthy(tokens[c]) then tokens[c] else None
  }

  /** A table entry that passes the skip check: present, non-empty, and either
      the unlimited marker or numeric. */
  predicate EntryAccepted(e: Option<string>, js: NumberParsing) {
    Truthy(e) && (e.value == Unlimited || js.isNumeric(e.value))
  }

  /** The amount submitted for an accepted entry: the decimal rendering of
      2^256 - 1 for the unlimited marker, otherwise the exact product of
      `BigInt(entry)` and 1000 rendered in decimal; `None` when `BigInt`
      throws. */
  function AmountFor(entry: string, js: NumberParsing): (r: Option<string>)
    ensures entry == Unlimited ==> r == Some(MaxUint256Text)
    ensures entry != Unlimited ==> (r.None? <==> js.toBigInt(entry).None?)
    ensures entry != Unlimited && js.toBigInt(entry).Some? ==>
              r == Some(IntToDecimal(js.toBigInt(entry).value * 1000))
  {
    if entry == Unlimited then Some(MaxUint256Text)
    else match js.toBigInt(entry)
      case None => None
      case Some(n) => Some(IntToDecimal(n * 1000))
  }

  /** A digit string submits the decimal rendering of its value times 1000. */
  lemma DigitsAmount(entry: string, js: NumberParsing)
    requires Agrees(js) && IsDigits(entry)
    ensures AmountFor(entry, js) == Some(NatToDecimal(Value(entry) * 1000))
  {
    assert entry[0] != 'u';
    assert entry != Unlimited;
  }

  /** A canonical non-zero digit string submits itself followed by "000". */
  lemma CanonicalAmount(entry: string, js: NumberParsing)
    requires Agrees(js) && Canonical(entry) && entry != "0"
    ensures AmountFor(entry, js) == Some(entry + "000")
  {
    DigitsAmount(entry, js);
    NatToDecimalOfValue(entry);
    ValuePositive(entry);
    ScaleByThousand(Value(entry));
  }

  /** The entry "0" is accepted, not skipped, and submits "0". */
  lemma ZeroAmount(js: NumberParsing)
    requires Agrees(js)
    ensures EntryAccepted(Some("0"), js)
    ensures AmountFor("0", js) == Some("0")
  {
    assert IsDigits("0") && Value("0") == 0;
    DigitsAmount("0", js);
  }

  /** The skip check on the entries whose fate is certain: a missing or
      empty entry is skipped, the unlimited marker is accepted, and a digit
      string is accepted and converts without throwing. */
  lemma EntryAcceptance(s: string, js: NumberParsing)
    ensures !EntryAccepted(None, js) && !EntryAccepted(Some(""), js)
    ensures EntryAccepted(Some(Unlimited), js)
    ensures Agrees(js) && IsDigits(s) ==> EntryAccepted(Some(s), js) && AmountFor(s, js).Some?
  {
    if Agrees(js) && IsDigits(s) {
      DigitsAmount(s, js);
    }
  }

  /** What the loop does for one chain. */
  datatype Step = Skip | Submit(request: AllowanceRequest) | Throw

  /** The loop body for one chain, in the order of the source's checks. */
  function ChainStep(c: ChainId, t: Table, tokens: TokenRegistry, js: NumberParsing): (s: Step)
    ensures s.Skip? <==> !EntryAccepted(Entry(t, c), js) || UsdcAddress(tokens, c).None?
    ensures s.Throw? <==> EntryAccepted(Entry(t, c), js) && UsdcAddress(tokens, c).Some?
                          && AmountFor(t[c], js).None?
    ensures s.Submit? ==> c in t && s.request == AllowanceRequest(
      UsdcAddress(tokens, c).value, Spender, AmountFor(t[c], js).value, c)
  {
    var entry := Entry(t, c);
    if !EntryAccepted(entry, js) then Skip
    else match UsdcAddress(tokens, c)
      case None => Skip
      case Some(token) =>
        match AmountFor(entry.value, js)
          case None => Throw
          case Some(amount) => Submit(AllowanceRequest(token, Spender, amount, c))
  }

  /** The requests the loop would send if no call failed: one per chain that
      is not skipped and does not throw, in chain order. */
  function Planned(chains: seq<ChainId>, t: Table, tokens: TokenRegistry, js: NumberParsing): seq<AllowanceRequest>
  {
    if chains == [] then []
    else
      var rest := Planned(chains[1..], t, tokens, js);
      match ChainStep(chains[0], t, tokens, js)
        case Submit(r) => [r] + rest
        case _ => rest
  }

  /** The result of running the loop inside its `try`: the requests sent, and
      whether the loop ran to the end without anything throwing. */
  datatype BatchOutcome = BatchOutcome(sent: seq<AllowanceRequest>, completed: bool)

  /** The loop over `chains`. `rejects(k)` says whether the SDK rejects the
      k-th `allowance` call of this submission (counting from 0); `issued`
      calls were made before this suffix. A `BigInt` throw or a rejection
      ends the whole batch. */
  function RunBatch(chains: seq<ChainId>, t: Table, tokens: TokenRegistry, js: NumberParsing,
                    rejects: nat -> bool, issued: nat): BatchOutcome
  {
    if chains == [] then BatchOutcome([], true)
    else match ChainStep(chains[0], t, tokens, js)
      case Skip => RunBatch(chains[1..], t, tokens, js, rejects, issued)
      case Throw => BatchOutcome([], false)
      case Submit(r) =>
        if rejects(issued) then BatchOutcome([r], false)
        else
          var rest := RunBatch(chains[1..], t, tokens, js, rejects, issued + 1);
          BatchOutcome([r] + rest.sent, rest.completed)
  }

  /** `whole` is what the batch over `chains` gives when `sent` were the
      requests sent before chain `i` and the batch goes on from chain `i`. */
  ghost predicate Resumes(whole: BatchOutcome, sent: seq<AllowanceRequest>, chains: seq<ChainId>, i: nat,
                          t: Table, tokens: TokenRegistry, js: NumberParsing, rejects: nat -> bool)
    requires i <= |chains|
  {
    var rest := RunBatch(chains[i..], t, tokens, js, rejects, |sent|);
    whole == BatchOutcome(sent + rest.sent, rest.completed)
  }

  /** A skipped chain keeps `Resumes` with nothing sent. */
  lemma AdvanceSkip(whole: BatchOutcome, sent: seq<AllowanceRequest>, chains: seq<ChainId>, i: nat,
                    t: Table, tokens: TokenRegistry, js: NumberParsing, rejects: nat -> bool)
    requires i < |chains| && Resumes(whole, sent, chains, i, t, tokens, js, rejects)
    requires ChainStep(chains[i], t, tokens, js).Skip?
    ensures Resumes(whole, sent, chains, i + 1, t, tokens, js, rejects)
  {
    assert chains[i..][0] == chains[i] && chains[i..][1..] == chains[i + 1..];
  }

  /** A `BigInt` throw ends the batch with what was sent before. */
  lemma AdvanceThrow(whole: BatchOutcome, sent: seq<AllowanceRequest>, chains: seq<ChainId>, i: nat,
                     t: Table, tokens: TokenRegistry, js: NumberParsing, rejects: nat -> bool)
    requires i < |chains| && Resumes(whole, sent, chains, i, t, tokens, js, rejects)
    requires ChainStep(chains[i], t, tokens, js).Throw?
    ensures whole == BatchOutcome(sent, false)
  {
    assert chains[i..][0] == chains[i];
    assert sent + [] == sent;
  }

  /** A rejected call ends the batch with that request as the last one sent. */
  lemma AdvanceRejected(whole: BatchOutcome, sent: seq<AllowanceRequest>, chains: seq<ChainId>, i: nat,
                        t: Table, tokens: TokenRegistry, js: NumberParsing, rejects: nat -> bool,
                        r: AllowanceRequest)
    requires i < |chains| && Resumes(whole, sent, chains, i, t, tokens, js, rejects)
    requires ChainStep(chains[i], t, tokens, js) == Submit(r) && rejects(|sent|)
    ensures whole == BatchOutcome(sent + [r], false)
  {
    assert chains[i..][0] == chains[i];
  }

  /** An accepted call keeps `Resumes` with the request appended. */
  lemma AdvanceAccepted(whole: BatchOutcome, sent: seq<AllowanceRequest>, chains: seq<ChainId>, i: nat,
                        t: Table, tokens: TokenRegistry, js: NumberParsing, rejects: nat -> bool,
                        r: AllowanceRequest)
    requires i < |chains| && Resumes(whole, sent, chains, i, t, tokens, js, rejects)
    requires ChainStep(chains[i], t, tokens, js) == Submit(r) && !rejects(|sent|)
    ensures Resumes(whole, sent + [r], chains, i + 1, t, tokens, js, rejects)
  {
    var n := |sent|;
    assert chains[i..][0] == chains[i] && chains[i..][1..] == chains[i + 1..];
    var more := RunBatch(chains[i + 1..], t, tokens, js, rejects, n + 1);
    assert RunBatch(chains[i..], t, tokens, js, rejects, n) == BatchOutcome([r] + more.sent, more.completed);
    assert |sent + [r]| == n + 1;
    assert (sent + [r]) + more.sent == sent + ([r] + more.sent);
  }

  /** The loop of `submitAllowances` itself: it walks the chains in order,
      skips a chain as `ChainStep` says, and stops at the first `BigInt`
      throw or rejected call. It returns the requests sent and whether it
      ran to the end, which is exactly what `RunBatch` describes. */
  method SubmitBatch(chains: seq<ChainId>, t: Table, tokens: TokenRegistry, js: NumberParsing,
                     rejects: nat -> bool)
    returns (sent: seq<AllowanceRequest>, completed: bool)
    ensures BatchOutcome(sent, completed) == RunBatch(chains, t, tokens, js, rejects, 0)
  {
    ghost var whole := RunBatch(chains, t, tokens, js, rejects, 0);
    sent := [];
    var thrown := false;
    var i := 0;
    assert Resumes(whole, sent, chains, i, t, tokens, js, rejects) by {
      assert chains[0..] == chains;
    }
    while i < |chains| && !thrown
      invariant 0 <= i <= |chains|
      invariant !thrown ==> Resumes(whole, sent, chains, i, t, tokens, js, rejects)
      invariant thrown ==> whole == BatchOutcome(sent, false)
      decreases |chains| - i, if thrown then 0 else 1
    {
      match ChainStep(chains[i], t, tokens, js)
      case Skip =>
        AdvanceSkip(whole, sent, chains, i, t, tokens, js, rejects);
        i := i + 1;
      case Throw =>
        AdvanceThrow(whole, sent, chains, i, t, tokens, js, rejects);
        thrown := true;
      case Submit(request) =>
        var call := |sent|;
        if rejects(call) {
          AdvanceRejected(whole, sent, chains, i, t, tokens, js, rejects, request);
          sent := sent + [request];
          thrown := true;
        } else {
          AdvanceAccepted(whole, sent, chains, i, t, tokens, js, rejects, request);
          sent := sent + [request];
          i := i + 1;
        }
    }
    completed := !thrown;
  }

  /** No chain's step throws. */
  predicate NoThrow(chains: seq<ChainId>, t: Table, tokens: TokenRegistry, js: NumberParsing) {
    forall i :: 0 <= i < |chains| ==> !ChainStep(chains[i], t, tokens, js).Throw?
  }

  /** The SDK accepts calls `issued` .. `issued + n - 1`. */
  predicate AcceptsFrom(rejects: nat -> bool, issued: nat, n: nat) {
    forall k :: issued <= k < issued + n ==> !rejects(k)
  }

  /** The requests sent are always a prefix of the planned ones, in the
      planned order. That nothing is attempted after a failure is
      `RunBatchAppend` and `ThrowStopsBatch`. */
  lemma {:induction false} SentIsPrefix(chains: seq<ChainId>, t: Table, tokens: TokenRegistry,
                                       js: NumberParsing, rejects: nat -> bool, issued: nat)
    ensures var sent := RunBatch(chains, t, tokens, js, rejects, issued).sent;
            var plan := Planned(chains, t, tokens, js);
            |sent| <= |plan| && sent == plan[..|sent|]
    decreases |chains|
  {
    if chains != [] {
      var step := ChainStep(chains[0], t, tokens, js);
      if step.Skip? || (step.Submit? && !rejects(issued)) {
        SentIsPrefix(chains[1..], t, tokens, js, rejects, if step.Skip? then issued else issued + 1);
      }
    }
  }

  /** A chain list has no throwing step exactly when its head does not and
      its tail has none. */
  lemma NoThrowCons(chains: seq<ChainId>, t: Table, tokens: TokenRegistry, js: NumberParsing)
    requires chains != []
    ensures NoThrow(chains, t, tokens, js) <==>
      !ChainStep(chains[0], t, tokens, js).Throw? && NoThrow(chains[1..], t, tokens, js)
  {
    var tail := chains[1..];
    if !ChainStep(chains[0], t, tokens, js).Throw? && NoThrow(tail, t, tokens, js) {
      forall i | 0 <= i < |chains| ensures !ChainStep(chains[i], t, tokens, js).Throw? {
        if i > 0 { assert chains[i] == tail[i - 1]; }
      }
    }
    if NoThrow(chains, t, tokens, js) {
      forall i | 0 <= i < |tail| ensures !ChainStep(tail[i], t, tokens, js).Throw? {
        assert tail[i] == chains[i + 1];
      }
    }
  }

  /** The loop runs to the end exactly when no chain throws and the SDK
      accepts every planned call. */
  lemma {:induction false} CompletedIff(chains: seq<ChainId>, t: Table, tokens: TokenRegistry,
                                       js: NumberParsing, rejects: nat -> bool, issued: nat)
    ensures RunBatch(chains, t, tokens, js, rejects, issued).completed <==>
              NoThrow(chains, t, tokens, js) && AcceptsFrom(rejects, issued, |Planned(chains, t, tokens, js)|)
    decreases |chains|
  {
    if chains != [] {
      var step := ChainStep(chains[0], t, tokens, js);
      var tail := chains[1..];
      NoThrowCons(chains, t, tokens, js);
      match step
      case Skip =>
        CompletedIff(tail, t, tokens, js, rejects, issued);
      case Throw =>
      case Submit(r) =>
        var n := |Planned(tail, t, tokens, js)|;
        assert |Planned(chains, t, tokens, js)| == n + 1;
        assert AcceptsFrom(rejects, issued, n + 1) <==> !rejects(issued) && AcceptsFrom(rejects, issued + 1, n);
        if !rejects(issued) {
          CompletedIff(tail, t, tokens, js, rejects, issued + 1);
        }
    }
  }

  /** A batch that runs to the end has sent every planned request. */
  lemma {:induction false} CompletedSendsAll(chains: seq<ChainId>, t: Table, tokens: TokenRegistry,
                                            js: NumberParsing, rejects: nat -> bool, issued: nat)
    ensures var b := RunBatch(chains, t, tokens, js, rejects, issued);
            b.completed ==> b.sent == Planned(chains, t, tokens, js)
    decreases |chains|
  {
    if chains != [] {
      var step := ChainStep(chains[0], t, tokens, js);
      if step.Skip? {
        CompletedSendsAll(chains[1..], t, tokens, js, rejects, issued);
      } else if step.Submit? && !rejects(issued) {
        CompletedSendsAll(chains[1..], t, tokens, js, rejects, issued + 1);
      }
    }
  }

  /** When nothing throws, a rejection of the j-th planned call stops the
      batch after at most j + 1 calls. */
  lemma {:induction false} RejectionStopsBatch(chains: seq<ChainId>, t: Table, tokens: TokenRegistry,
                                              js: NumberParsing, rejects: nat -> bool, issued: nat, j: nat)
    requires NoThrow(chains, t, tokens, js)
    requires j < |Planned(chains, t, tokens, js)| && rejects(issued + j)
    ensures var b := RunBatch(chains, t, tokens, js, rejects, issued);
            !b.completed && |b.sent| <= j + 1
    decreases |chains|
  {
    var step := ChainStep(chains[0], t, tokens, js);
    var tail := chains[1..];
    NoThrowCons(chains, t, tokens, js);
    if step.Skip? {
      RejectionStopsBatch(tail, t, tokens, js, rejects, issued, j);
    } else if !rejects(issued) {
      RejectionStopsBatch(tail, t, tokens, js, rejects, issued + 1, j - 1);
    }
  }

  /** When nothing throws and the j-th planned call is the first one the SDK
      rejects, the batch has sent exactly the planned calls up to and
      including that one. */
  lemma {:induction false} FirstRejectionSends(chains: seq<ChainId>, t: Table, tokens: TokenRegistry,
                                              js: NumberParsing, rejects: nat -> bool, issued: nat, j: nat)
    requires NoThrow(chains, t, tokens, js)
    requires j < |Planned(chains, t, tokens, js)| && rejects(issued + j) && AcceptsFrom(rejects, issued, j)
    ensures RunBatch(chains, t, tokens, js, rejects, issued).sent == Planned(chains, t, tokens, js)[..j + 1]
    decreases |chains|
  {
    var step := ChainStep(chains[0], t, tokens, js);
    var tail := chains[1..];
    NoThrowCons(chains, t, tokens, js);
    if step.Skip? {
      FirstRejectionSends(tail, t, tokens, js, rejects, issued, j);
    } else if j > 0 {
      assert !rejects(issued);
      assert AcceptsFrom(rejects, issued + 1, j - 1) by {
        forall k | issued + 1 <= k < issued + 1 + (j - 1) ensures !rejects(k) {
          assert issued <= k < issued + j;
        }
      }
      FirstRejectionSends(tail, t, tokens, js, rejects, issued + 1, j - 1);
    }
  }

  /** How the loop over `xs + ys` relates to its two parts. */
  function Appended(a: BatchOutcome, b: BatchOutcome): BatchOutcome {
    if a.completed then BatchOutcome(a.sent + b.sent, b.completed) else a
  }

  /** Running the loop over `xs + ys` runs it over `xs` and, only when that
      part ran to the end, carries on over `ys` with the calls counted so
      far. A throw or a rejection in `xs` therefore ends the whole batch:
      no chain of `ys` is attempted. */
  lemma {:induction false} RunBatchAppend(xs: seq<ChainId>, ys: seq<ChainId>, t: Table, tokens: TokenRegistry,
                                         js: NumberParsing, rejects: nat -> bool, issued: nat)
    ensures var a := RunBatch(xs, t, tokens, js, rejects, issued);
            RunBatch(xs + ys, t, tokens, js, rejects, issued) ==
              Appended(a, RunBatch(ys, t, tokens, js, rejects, issued + |a.sent|))
    decreases |xs|, 1
  {
    if xs == [] {
      assert xs + ys == ys;
      var b := RunBatch(ys, t, tokens, js, rejects, issued);
      assert [] + b.sent == b.sent;
    } else if ChainStep(xs[0], t, tokens, js).Submit? && !rejects(issued) {
      AppendAccepted(xs, ys, t, tokens, js, rejects, issued);
    } else {
      AppendOther(xs, ys, t, tokens, js, rejects, issued);
    }
  }

  /** `RunBatchAppend` when the first chain's call is made and accepted. */
  lemma {:induction false} AppendAccepted(xs: seq<ChainId>, ys: seq<ChainId>, t: Table, tokens: TokenRegistry,
                                         js: NumberParsing, rejects: nat -> bool, issued: nat)
    requires xs != [] && ChainStep(xs[0], t, tokens, js).Submit? && !rejects(issued)
    ensures var a := RunBatch(xs, t, tokens, js, rejects, issued);
            RunBatch(xs + ys, t, tokens, js, rejects, issued) ==
              Appended(a, RunBatch(ys, t, tokens, js, rejects, issued + |a.sent|))
    decreases |xs|, 0
  {
    SplitHead(xs, ys);
    var a := RunBatch(xs, t, tokens, js, rejects, issued);
    UnfoldAccepted(xs, t, tokens, js, rejects, issued);
    UnfoldAccepted(xs + ys, t, tokens, js, rejects, issued);
    RunBatchAppend(xs[1..], ys, t, tokens, js, rejects, issued + 1);
    AppendedCons(ChainStep(xs[0], t, tokens, js).request, RunBatch(xs + ys, t, tokens, js, rejects, issued),
                 RunBatch(xs[1..] + ys, t, tokens, js, rejects, issued + 1), a,
                 RunBatch(xs[1..], t, tokens, js, rejects, issued + 1),
                 RunBatch(ys, t, tokens, js, rejects, issued + |a.sent|));
  }

  /** The head and the tail of a concatenation whose first part is not empty. */
  lemma SplitHead<T>(xs: seq<T>, ys: seq<T>)
    requires xs != []
    ensures (xs + ys)[0] == xs[0] && (xs + ys)[1..] == xs[1..] + ys
  {
  }

  /** One step of the loop over a chain whose call is made and accepted. */
  lemma UnfoldAccepted(chains: seq<ChainId>, t: Table, tokens: TokenRegistry, js: NumberParsing,
                       rejects: nat -> bool, issued: nat)
    requires chains != [] && ChainStep(chains[0], t, tokens, js).Submit? && !rejects(issued)
    ensures var rest := RunBatch(chains[1..], t, tokens, js, rejects, issued + 1);
            RunBatch(chains, t, tokens, js, rejects, issued) ==
              BatchOutcome([ChainStep(chains[0], t, tokens, js).request] + rest.sent, rest.completed)
  {
  }

  /** Putting one accepted call in front commutes with `Appended`. */
  lemma AppendedCons(r: AllowanceRequest, whole: BatchOutcome, tail: BatchOutcome,
                     a: BatchOutcome, rest: BatchOutcome, b: BatchOutcome)
    requires whole == BatchOutcome([r] + tail.sent, tail.completed)
    requires a == BatchOutcome([r] + rest.sent, rest.completed)
    requires tail == Appended(rest, b)
    ensures whole == Appended(a, b)
  {
    if rest.completed {
      assert [r] + (rest.sent + b.sent) == ([r] + rest.sent) + b.sent;
    }
  }

  /** `RunBatchAppend` when the first chain is skipped, throws or is rejected. */
  lemma {:induction false} AppendOther(xs: seq<ChainId>, ys: seq<ChainId>, t: Table, tokens: TokenRegistry,
                                      js: NumberParsing, rejects: nat -> bool, issued: nat)
    requires xs != [] && !(ChainStep(xs[0], t, tokens, js).Submit? && !rejects(issued))
    ensures var a := RunBatch(xs, t, tokens, js, rejects, issued);
            RunBatch(xs + ys, t, tokens, js, rejects, issued) ==
              Appended(a, RunBatch(ys, t, tokens, js, rejects, issued + |a.sent|))
    decreases |xs|, 0
  {
    SplitHead(xs, ys);
    if ChainStep(xs[0], t, tokens, js).Skip? {
      RunBatchAppend(xs[1..], ys, t, tokens, js, rejects, issued);
    }
  }

  /** A chain whose entry makes `BigInt` throw ends the batch: it does not
      complete, and the calls sent are those of the chains before it. */
  lemma ThrowStopsBatch(chains: seq<ChainId>, t: Table, tokens: TokenRegistry, js: NumberParsing,
                        rejects: nat -> bool, issued: nat, i: nat)
    requires i < |chains| && ChainStep(chains[i], t, tokens, js).Throw?
    ensures var b := RunBatch(chains, t, tokens, js, rejects, issued);
            !b.completed && b.sent == RunBatch(chains[..i], t, tokens, js, rejects, issued).sent
  {
    assert chains == chains[..i] + chains[i..];
    RunBatchAppend(chains[..i], chains[i..], t, tokens, js, rejects, issued);
    assert chains[i..][0] == chains[i];
    var a := RunBatch(chains[..i], t, tokens, js, rejects, issued);
    assert a.sent + [] == a.sent;
  }

  /** Every chain whose step submits has its request planned. */
  lemma {:induction false} PlannedComplete(chains: seq<ChainId>, t: Table, tokens: TokenRegistry,
                                          js: NumberParsing, c: ChainId)
    requires c in chains && ChainStep(c, t, tokens, js).Submit?
    ensures ChainStep(c, t, tokens, js).request in Planned(chains, t, tokens, js)
    decreases |chains|
  {
    var rest := Planned(chains[1..], t, tokens, js);
    if chains[0] != c {
      assert c in chains[1..];
      PlannedComplete(chains[1..], t, tokens, js, c);
    }
    assert forall r :: r in rest ==> r in Planned(chains, t, tokens, js);
  }

  /** The chain ids of a list of requests, in order. */
  function ChainIds(rs: seq<AllowanceRequest>): (ids: seq<ChainId>)
    ensures |ids| == |rs|
    ensures forall i :: 0 <= i < |rs| ==> ids[i] == rs[i].chainId
  {
    if rs == [] then [] else [rs[0].chainId] + ChainIds(rs[1..])
  }

  /** `xs` is `ys` with some elements left out, order kept. */
  predicate IsSubsequence<T(==)>(xs: seq<T>, ys: seq<T>)
    decreases |ys|
  {
    if xs == [] then true
    else if ys == [] then false
    else if xs[0] == ys[0] then IsSubsequence(xs[1..], ys[1..])
    else IsSubsequence(xs, ys[1..])
  }

  /** No element occurs twice. */
  predicate Distinct<T(==)>(xs: seq<T>) {
    forall i, j :: 0 <= i < j < |xs| ==> xs[i] != xs[j]
  }

  lemma {:induction false} SubsequenceMembers<T>(xs: seq<T>, ys: seq<T>)
    requires IsSubsequence(xs, ys)
    ensures forall x :: x in xs ==> x in ys
    decreases |ys|
  {
    if xs != [] {
      if xs[0] == ys[0] {
        SubsequenceMembers(xs[1..], ys[1..]);
        forall x | x in xs ensures x in ys {
          if x != xs[0] { assert x in xs[1..]; assert x in ys[1..]; }
        }
      } else {
        SubsequenceMembers(xs, ys[1..]);
      }
    }
  }

  /** A subsequence of a list without repetitions has none either. */
  lemma {:induction false} SubsequenceDistinct<T>(xs: seq<T>, ys: seq<T>)
    requires IsSubsequence(xs, ys) && Distinct(ys)
    ensures Distinct(xs)
    decreases |ys|
  {
    if xs != [] {
      assert Distinct(ys[1..]) by {
        forall i, j | 0 <= i < j < |ys[1..]| ensures ys[1..][i] != ys[1..][j] {
          assert ys[1..][i] == ys[i + 1] && ys[1..][j] == ys[j + 1];
        }
      }
      if xs[0] == ys[0] {
        SubsequenceDistinct(xs[1..], ys[1..]);
        SubsequenceMembers(xs[1..], ys[1..]);
        assert ys[0] !in ys[1..] by {
          forall k | 0 <= k < |ys[1..]| ensures ys[1..][k] != ys[0] {
            assert ys[1..][k] == ys[k + 1];
          }
        }
        forall i, j | 0 <= i < j < |xs| ensures xs[i] != xs[j] {
          assert xs[j] == xs[1..][j - 1];
          if i > 0 { assert xs[i] == xs[1..][i - 1]; }
          else { assert xs[j] in xs[1..]; }
        }
      } else {
        SubsequenceDistinct(xs, ys[1..]);
      }
    }
  }

  /** A prefix of a subsequence is a subsequence. */
  lemma {:induction false} PrefixSubsequence<T>(xs: seq<T>, ys: seq<T>, n: nat)
    requires IsSubsequence(xs, ys) && n <= |xs|
    ensures IsSubsequence(xs[..n], ys)
    decreases |ys|
  {
    if n > 0 {
      if xs[0] == ys[0] {
        PrefixSubsequence(xs[1..], ys[1..], n - 1);
        assert xs[..n][1..] == xs[1..][..n - 1];
      } else {
        PrefixSubsequence(xs, ys[1..], n);
      }
    }
  }

  /** The planned requests follow the chain order. */
  lemma {:induction false} PlannedFollowsChains(chains: seq<ChainId>, t: Table, tokens: TokenRegistry, js: NumberParsing)
    ensures IsSubsequence(ChainIds(Planned(chains, t, tokens, js)), chains)
    decreases |chains|
  {
    if chains != [] {
      var tail := chains[1..];
      PlannedFollowsChains(tail, t, tokens, js);
      var rest := ChainIds(Planned(tail, t, tokens, js));
      SkipHead(rest, chains);
      var step := ChainStep(chains[0], t, tokens, js);
      if step.Submit? {
        var ids := ChainIds(Planned(chains, t, tokens, js));
        assert ids[0] == chains[0];
        assert ids[1..] == rest;
      }
    }
  }

  /** Putting an element in front of the longer list keeps a subsequence. */
  lemma {:induction false} SkipHead<T>(xs: seq<T>, ys: seq<T>)
    requires |ys| > 0 && IsSubsequence(xs, ys[1..])
    ensures IsSubsequence(xs, ys)
    decreases |ys|, 0
  {
    if xs != [] && xs[0] == ys[0] {
      DropHead(xs, ys[1..]);
    }
  }

  /** Dropping the first element of a subsequence keeps a subsequence. */
  lemma {:induction false} DropHead<T>(xs: seq<T>, ys: seq<T>)
    requires |xs| > 0 && IsSubsequence(xs, ys)
    ensures IsSubsequence(xs[1..], ys)
    decreases |ys|, 1
  {
    if xs[0] == ys[0] {
      SkipHead(xs[1..], ys);
    } else {
      DropHead(xs, ys[1..]);
      SkipHead(xs[1..], ys);
    }
  }

  /** Every planned request names its chain's USDC address, the fixed spender
      and the amount the chain's entry fixes, and comes from an accepted,
      non-throwing entry. */
  lemma {:induction false} PlannedShape(chains: seq<ChainId>, t: Table, tokens: TokenRegistry, js: NumberParsing)
    ensures forall r :: r in Planned(chains, t, tokens, js) ==>
      r.chainId in chains && r.chainId in t && EntryAccepted(Some(t[r.chainId]), js)
      && UsdcAddress(tokens, r.chainId) == Some(r.tokenAddress)
      && r.spender == Spender
      && AmountFor(t[r.chainId], js) == Some(r.amount)
    decreases |chains|
  {
    if chains != [] {
      PlannedShape(chains[1..], t, tokens, js);
      forall r | r in Planned(chains, t, tokens, js)
        ensures r.chainId in chains
      {
        if r !in Planned(chains[1..], t, tokens, js) {
          assert r.chainId == chains[0];
        } else {
          assert r.chainId in chains[1..];
        }
      }
    }
  }

  /** The requests actually sent follow the chain order, name each chain at
      most once when the chain list has no repetitions, and have the planned
      shape. */
  lemma SentFollowsChains(chains: seq<ChainId>, t: Table, tokens: TokenRegistry,
                          js: NumberParsing, rejects: nat -> bool)
    ensures var sent := RunBatch(chains, t, tokens, js, rejects, 0).sent;
            IsSubsequence(ChainIds(sent), chains)
            && (Distinct(chains) ==> Distinct(ChainIds(sent)))
            && forall r :: r in sent ==> r in Planned(chains, t, tokens, js)
  {
    var sent := RunBatch(chains, t, tokens, js, rejects, 0).sent;
    var plan := Planned(chains, t, tokens, js);
    SentIsPrefix(chains, t, tokens, js, rejects, 0);
    PlannedFollowsChains(chains, t, tokens, js);
    assert ChainIds(sent) == ChainIds(plan)[..|sent|];
    PrefixSubsequence(ChainIds(plan), chains, |sent|);
    if Distinct(chains) {
      SubsequenceDistinct(ChainIds(sent), chains);
    }
    forall r | r in sent ensures r in plan {
      var i :| 0 <= i < |sent| && sent[i] == r;
      assert plan[i] == r;
    }
  }
}
