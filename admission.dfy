/**
 * The per-sender nonce admission scan that `process_deposits` runs over the
 * sorted deposit list, and what it guarantees: a sender's first deposit is
 * taken as its baseline, every later one must carry the next nonce, and a
 * deposit that does not is skipped without disturbing the record.
 */
module Admission {
  import opened Core
  import opened Lists
  import Circuits

  function Sender(d: Circuits.Deposit): Address { d.mpnDeposit.payment.src }

  /** The sort key of a deposit: the nonce of its host-chain payment. */
  function Nonce(d: Circuits.Deposit): int { d.mpnDeposit.payment.nonce }

  /** The scan's two accumulators: the admitted list and the nonce map. */
  datatype ScanState = ScanState(admitted: seq<Circuits.Deposit>, nonces: map<Address, int>)

  /** One iteration of the scan over deposit `d`. */
  function Step(st: ScanState, d: Circuits.Deposit): ScanState {
    if Sender(d) in st.nonces && Nonce(d) != st.nonces[Sender(d)] + 1 then st
    else ScanState(st.admitted + [d], st.nonces[Sender(d) := Nonce(d)])
  }

  /** The scan's state after the deposits of `s`, in order. */
  function Scan(s: seq<Circuits.Deposit>): ScanState
    decreases |s|
  {
    if s == [] then ScanState([], map[]) else Step(Scan(s[..|s| - 1]), s[|s| - 1])
  }

  /** The deposits the scan hands to the bank. */
  function Admit(s: seq<Circuits.Deposit>): seq<Circuits.Deposit> {
    Scan(s).admitted
  }

  /** The admission loop of `process_deposits`, over the already sorted list. */
  method AdmitDeposits(sorted: seq<Circuits.Deposit>) returns (deposits: seq<Circuits.Deposit>)
    ensures deposits == Admit(sorted)
  {
    deposits := [];
    var nonces: map<Address, int> := map[];
    for i := 0 to |sorted|
      invariant ScanState(deposits, nonces) == Scan(sorted[..i])
    {
      var d := sorted[i];
      assert sorted[..i + 1][..i] == sorted[..i];
      var pay := d.mpnDeposit.payment;
      if pay.src in nonces {
        var prevNonce := nonces[pay.src];
        if pay.nonce != prevNonce + 1 {
          continue;
        }
      }
      nonces := nonces[pay.src := pay.nonce];
      deposits := deposits + [d];
    }
    assert sorted[..|sorted|] == sorted;
  }

  /** The nonces of `a`'s deposits in `s`, in list order. */
  function NoncesOf(s: seq<Circuits.Deposit>, a: Address): seq<int>
    decreases |s|
  {
    if s == [] then []
    else
      var rest := NoncesOf(s[..|s| - 1], a);
      if Sender(s[|s| - 1]) == a then rest + [Nonce(s[|s| - 1])] else rest
  }

  lemma NoncesOfAppend(s: seq<Circuits.Deposit>, d: Circuits.Deposit, a: Address)
    ensures NoncesOf(s + [d], a) == if Sender(d) == a then NoncesOf(s, a) + [Nonce(d)] else NoncesOf(s, a)
  {
    assert (s + [d])[..|s|] == s;
  }

  /**
   * The admission rule for a single sender, on that sender's nonces alone:
   * the first is the baseline, a later one is taken iff it is one more than
   * the last one taken.
   */
  function Run(ns: seq<int>): seq<int>
    decreases |ns|
  {
    if ns == [] then []
    else
      var r, n := Run(ns[..|ns| - 1]), ns[|ns| - 1];
      if r == [] || n == r[|r| - 1] + 1 then r + [n] else r
  }

  /** `Run` takes one more nonce exactly as the single-sender rule says. */
  lemma RunAppend(ns: seq<int>, n: int)
    ensures var r := Run(ns);
      Run(ns + [n]) == if r == [] || n == r[|r| - 1] + 1 then r + [n] else r
  {
    assert (ns + [n])[..|ns|] == ns;
  }

  /**
   * The nonce map always records, for each sender, the nonce of that
   * sender's last admitted deposit, and has an entry exactly for the
   * senders that have one admitted.
   */
  lemma {:induction false} ScanTracksLastAdmitted(s: seq<Circuits.Deposit>, a: Address)
    ensures var st := Scan(s); var r := NoncesOf(st.admitted, a);
      && (a in st.nonces <==> r != [])
      && (a in st.nonces ==> st.nonces[a] == r[|r| - 1])
    decreases |s|
  {
    if s != [] {
      var init, d := s[..|s| - 1], s[|s| - 1];
      ScanTracksLastAdmitted(init, a);
      NoncesOfAppend(Scan(init).admitted, d, a);
    }
  }

  /**
   * The scan decides each deposit as the rule says: a sender's first
   * deposit is always admitted; a later one is admitted iff its nonce is one
   * more than the sender's last admitted nonce; a skipped deposit changes
   * neither the admitted list nor the recorded nonces.
   */
  lemma AdmissionRule(s: seq<Circuits.Deposit>, d: Circuits.Deposit)
    ensures var r := NoncesOf(Admit(s), Sender(d));
      if r == [] || Nonce(d) == r[|r| - 1] + 1 then
        && Admit(s + [d]) == Admit(s) + [d]
        && Scan(s + [d]).nonces == Scan(s).nonces[Sender(d) := Nonce(d)]
      else
        Scan(s + [d]) == Scan(s)
  {
    assert (s + [d])[..|s|] == s;
    ScanTracksLastAdmitted(s, Sender(d));
  }

  /** The admitted list grows by `d` exactly when the rule admits `d`. */
  lemma AdmitStep(s: seq<Circuits.Deposit>, d: Circuits.Deposit)
    ensures var r := NoncesOf(Admit(s), Sender(d));
      Admit(s + [d]) == if r == [] || Nonce(d) == r[|r| - 1] + 1 then Admit(s) + [d] else Admit(s)
  {
    AdmissionRule(s, d);
  }

  /** The deposits handed on are a subsequence of the sorted list. */
  lemma {:induction false} AdmitSubsequence(s: seq<Circuits.Deposit>)
    ensures IsSubsequence(Admit(s), s)
    decreases |s|
  {
    if s != [] {
      var init, d := s[..|s| - 1], s[|s| - 1];
      AdmitSubsequence(init);
      SubsequenceExtend(Admit(init), init, d);
      assert s == init + [d];
    }
  }

  /** Admission of one sender's deposits depends on that sender's nonces only. */
  lemma {:induction false} AdmittedPerSender(s: seq<Circuits.Deposit>, a: Address)
    ensures NoncesOf(Admit(s), a) == Run(NoncesOf(s, a))
    decreases |s|
  {
    if s != [] {
      var init, d := s[..|s| - 1], s[|s| - 1];
      assert s == init + [d];
      AdmittedPerSender(init, a);
      AdmitStep(init, d);
      NoncesOfAppend(init, d, a);
      var ns, r, n := NoncesOf(init, a), NoncesOf(Admit(init), a), Nonce(d);
      if Sender(d) == a {
        RunAppend(ns, n);
        if r == [] || n == r[|r| - 1] + 1 {
          NoncesOfAppend(Admit(init), d, a);
        }
      } else if Admit(s) == Admit(init) + [d] {
        NoncesOfAppend(Admit(init), d, a);
      }
    }
  }

  /**
   * The nonces a sender gets admitted are consecutive, starting at the
   * nonce of that sender's first deposit, and are taken from its nonces.
   */
  lemma {:induction false} RunConsecutive(ns: seq<int>)
    ensures Run(ns) == [] <==> ns == []
    ensures forall i :: 0 <= i < |Run(ns)| ==> Run(ns)[i] == ns[0] + i
    ensures IsSubsequence(Run(ns), ns)
    decreases |ns|
  {
    if ns != [] {
      var init, n := ns[..|ns| - 1], ns[|ns| - 1];
      assert ns == init + [n];
      RunConsecutive(init);
      var r := Run(init);
      SubsequenceExtend(r, init, n);
      if r == [] || n == r[|r| - 1] + 1 {
        assert Run(ns) == r + [n];
        if init != [] {
          assert init[0] == ns[0];
        }
      } else {
        assert Run(ns) == r;
        assert init[0] == ns[0];
      }
    }
  }

  /**
   * On nonces in ascending order the admitted run is maximal: the nonce
   * right after it does not occur at all.
   */
  lemma {:induction false} RunMaximal(ns: seq<int>)
    requires ns != []
    requires forall i, j :: 0 <= i < j < |ns| ==> ns[i] <= ns[j]
    ensures ns[0] + |Run(ns)| !in ns
    decreases |ns|
  {
    var init, n := ns[..|ns| - 1], ns[|ns| - 1];
    if init == [] {
      assert Run(ns) == [n];
    } else {
      assert forall i, j :: 0 <= i < j < |init| ==> init[i] <= init[j];
      RunMaximal(init);
      RunExtendMaximal(ns);
    }
  }

  /**
   * One step of `RunMaximal`: the last nonce is no smaller than those
   * before it, and the run of those before it is maximal among them.
   */
  lemma RunExtendMaximal(ns: seq<int>)
    requires |ns| >= 2
    requires var init := ns[..|ns| - 1]; init[0] + |Run(init)| !in init
    requires forall i :: 0 <= i < |ns| - 1 ==> ns[i] <= ns[|ns| - 1]
    ensures ns[0] + |Run(ns)| !in ns
  {
    var init, n := ns[..|ns| - 1], ns[|ns| - 1];
    assert ns == init + [n];
    RunConsecutive(init);
    var r := Run(init);
    var m := init[0] + |r|;
    assert r[|r| - 1] == m - 1;
    if n == m {
      assert Run(ns) == r + [n];
      forall i | 0 <= i < |init| ensures init[i] != m + 1 {
        assert init[i] == ns[i];
      }
    } else {
      assert Run(ns) == r;
    }
  }

  lemma {:induction false} NoncesOfBounded(s: seq<Circuits.Deposit>, a: Address, bound: int)
    requires forall i :: 0 <= i < |s| ==> Nonce(s[i]) <= bound
    ensures forall v :: v in NoncesOf(s, a) ==> v <= bound
    decreases |s|
  {
    if s != [] {
      NoncesOfBounded(s[..|s| - 1], a, bound);
    }
  }

  /** A sender's nonces in a list sorted by nonce are in ascending order. */
  lemma {:induction false} NoncesOfSorted(s: seq<Circuits.Deposit>, a: Address)
    requires forall i, j :: 0 <= i < j < |s| ==> Nonce(s[i]) <= Nonce(s[j])
    ensures var ns := NoncesOf(s, a); forall i, j :: 0 <= i < j < |ns| ==> ns[i] <= ns[j]
    decreases |s|
  {
    if s != [] {
      var init, d := s[..|s| - 1], s[|s| - 1];
      assert forall i :: 0 <= i < |init| ==> init[i] == s[i];
      NoncesOfSorted(init, a);
      NoncesOfBounded(init, a, Nonce(d));
      assert s == init + [d];
      NoncesOfAppend(init, d, a);
      var r := NoncesOf(init, a);
      forall i | 0 <= i < |r| ensures r[i] <= Nonce(d) {
        assert r[i] in r;
      }
    }
  }

  /** In ascending order the first element is the smallest. */
  lemma FirstIsLeast(ns: seq<int>)
    requires ns != []
    requires forall i, j :: 0 <= i < j < |ns| ==> ns[i] <= ns[j]
    ensures forall v :: v in ns ==> ns[0] <= v
  {
    forall v | v in ns ensures ns[0] <= v {
      var j :| 0 <= j < |ns| && ns[j] == v;
      if j > 0 { assert ns[0] <= ns[j]; }
    }
  }

  /**
   * In any deposit list, the nonces admitted for sender `a` are consecutive,
   * start at the nonce of `a`'s first deposit and are among `a`'s nonces; a
   * sender with deposits always gets one in.
   */
  lemma AdmittedRunShape(s: seq<Circuits.Deposit>, a: Address)
    ensures var ns, r := NoncesOf(s, a), NoncesOf(Admit(s), a);
      && (r == [] <==> ns == [])
      && (forall i :: 0 <= i < |r| ==> r[i] == ns[0] + i && r[i] in ns)
  {
    var ns, r := NoncesOf(s, a), NoncesOf(Admit(s), a);
    AdmittedPerSender(s, a);
    RunConsecutive(ns);
    SubsequenceMembers(r, ns);
    forall i | 0 <= i < |r| ensures r[i] in ns {
      assert r[i] in r;
    }
  }

  /**
   * In a deposit list sorted by nonce, `a`'s first nonce is its smallest,
   * and the nonce right after `a`'s admitted run does not occur among
   * `a`'s deposits: the run is the longest one.
   */
  lemma SortedRunMaximal(s: seq<Circuits.Deposit>, a: Address)
    requires SortedBy(s, Nonce)
    ensures var ns, r := NoncesOf(s, a), NoncesOf(Admit(s), a);
      ns != [] ==> (forall v :: v in ns ==> ns[0] <= v) && ns[0] + |r| !in ns
  {
    var ns := NoncesOf(s, a);
    if ns != [] {
      assert forall i, j :: 0 <= i < j < |s| ==> Nonce(s[i]) <= Nonce(s[j]);
      NoncesOfSorted(s, a);
      AdmittedPerSender(s, a);
      RunMaximal(ns);
      FirstIsLeast(ns);
    }
  }

  /**
   * For a deposit list sorted by nonce, the nonces admitted for sender `a`
   * are exactly the longest run m, m+1, m+2, ... of `a`'s nonces that starts
   * at `a`'s smallest nonce m; a sender with deposits always gets one in.
   */
  lemma SenderAdmittedRun(s: seq<Circuits.Deposit>, a: Address)
    requires SortedBy(s, Nonce)
    ensures var ns, r := NoncesOf(s, a), NoncesOf(Admit(s), a);
      && (r == [] <==> ns == [])
      && (ns != [] ==> forall v :: v in ns ==> ns[0] <= v)
      && (forall i :: 0 <= i < |r| ==> r[i] == ns[0] + i && r[i] in ns)
      && (ns != [] ==> ns[0] + |r| !in ns)
  {
    AdmittedRunShape(s, a);
    SortedRunMaximal(s, a);
  }

  /**
   * A deposit repeating a nonce that its sender already has admitted is
   * skipped.
   */
  lemma DuplicateSkipped(s: seq<Circuits.Deposit>, d: Circuits.Deposit)
    requires Nonce(d) in NoncesOf(Admit(s), Sender(d))
    ensures Admit(s + [d]) == Admit(s)
  {
    var ns := NoncesOf(s, Sender(d));
    AdmittedPerSender(s, Sender(d));
    RunConsecutive(ns);
    AdmissionRule(s, d);
    var r := NoncesOf(Admit(s), Sender(d));
    var k :| 0 <= k < |r| && r[k] == Nonce(d);
    assert r[|r| - 1] == ns[0] + |r| - 1;
  }

  /** The nonces listed for `a` are the nonces of `a`'s deposits. */
  lemma {:induction false} NoncesOfMembers(s: seq<Circuits.Deposit>, a: Address)
    ensures forall v :: v in NoncesOf(s, a) <==> exists d :: d in s && Sender(d) == a && Nonce(d) == v
    decreases |s|
  {
    if s != [] {
      var init, d := s[..|s| - 1], s[|s| - 1];
      assert s == init + [d];
      NoncesOfMembers(init, a);
      NoncesOfAppend(init, d, a);
    }
  }

  /** A run m, m+1, ... of members of `ns` ends at one place only. */
  lemma FirstGapUnique(ns: seq<int>, m: int, k1: nat, k2: nat)
    requires forall v :: m <= v < m + k1 ==> v in ns
    requires forall v :: m <= v < m + k2 ==> v in ns
    requires m + k1 !in ns && m + k2 !in ns
    ensures k1 == k2
  {
  }

  /**
   * `sort_unstable_by_key` may leave deposits with equal nonces in any
   * order, but whichever order it picks, every sender gets the same nonces
   * admitted.
   */
  lemma AdmittedNoncesIgnoreTieOrder(s1: seq<Circuits.Deposit>, s2: seq<Circuits.Deposit>, a: Address)
    requires SortedBy(s1, Nonce) && SortedBy(s2, Nonce)
    requires multiset(s1) == multiset(s2)
    ensures NoncesOf(Admit(s1), a) == NoncesOf(Admit(s2), a)
  {
    SenderAdmittedRun(s1, a);
    SenderAdmittedRun(s2, a);
    SameNonces(s1, s2, a);
    RunsFromSameNonces(NoncesOf(s1, a), NoncesOf(s2, a), NoncesOf(Admit(s1), a), NoncesOf(Admit(s2), a));
  }

  lemma SameNonces(s1: seq<Circuits.Deposit>, s2: seq<Circuits.Deposit>, a: Address)
    requires multiset(s1) == multiset(s2)
    ensures forall v :: v in NoncesOf(s1, a) <==> v in NoncesOf(s2, a)
  {
    NoncesOfMembers(s1, a);
    NoncesOfMembers(s2, a);
    forall d ensures d in s1 <==> d in s2 {
      assert d in s1 <==> d in multiset(s1);
      assert d in s2 <==> d in multiset(s2);
    }
  }

  /** Two maximal runs from the least of the same nonces are the same run. */
  lemma RunsFromSameNonces(ns1: seq<int>, ns2: seq<int>, r1: seq<int>, r2: seq<int>)
    requires forall v :: v in ns1 <==> v in ns2
    requires (r1 == [] <==> ns1 == []) && (r2 == [] <==> ns2 == [])
    requires ns1 != [] ==> forall v :: v in ns1 ==> ns1[0] <= v
    requires ns2 != [] ==> forall v :: v in ns2 ==> ns2[0] <= v
    requires forall i :: 0 <= i < |r1| ==> r1[i] == ns1[0] + i && r1[i] in ns1
    requires forall i :: 0 <= i < |r2| ==> r2[i] == ns2[0] + i && r2[i] in ns2
    requires ns1 != [] ==> ns1[0] + |r1| !in ns1
    requires ns2 != [] ==> ns2[0] + |r2| !in ns2
    ensures r1 == r2
  {
    assert (ns1 == []) == (ns2 == []) by {
      if ns1 != [] { assert ns1[0] in ns2; }
      if ns2 != [] { assert ns2[0] in ns1; }
    }
    if ns1 != [] {
      assert ns1[0] in ns2 && ns2[0] in ns1;
      var m := ns1[0];
      forall v | m <= v < m + |r1| ensures v in ns1 {
        assert r1[v - m] in ns1;
      }
      forall v | m <= v < m + |r2| ensures v in ns1 {
        assert r2[v - m] in ns2;
      }
      FirstGapUnique(ns1, m, |r1|, |r2|);
    }
  }

  /**
   * A sender whose deposits carry nonces 1, 2, 4 and 5 gets 1 and 2 in; the
   * gap at 3 defers 4 and 5.
   */
  lemma GapDefersLaterNonces(d1: Circuits.Deposit, d2: Circuits.Deposit, d4: Circuits.Deposit, d5: Circuits.Deposit)
    requires Sender(d1) == Sender(d2) == Sender(d4) == Sender(d5)
    requires Nonce(d1) == 1 && Nonce(d2) == 2 && Nonce(d4) == 4 && Nonce(d5) == 5
    ensures Admit([d1, d2, d4, d5]) == [d1, d2]
  {
    var a := Sender(d1);
    AdmitStep([], d1);
    assert [] + [d1] == [d1];
    assert Admit([d1]) == [d1];
    NoncesOfAppend([], d1, a);
    assert NoncesOf([d1], a) == [1];
    AdmitStep([d1], d2);
    assert [d1] + [d2] == [d1, d2];
    assert Admit([d1, d2]) == [d1, d2];
    NoncesOfAppend([d1], d2, a);
    assert NoncesOf([d1, d2], a) == [1, 2];
    AdmitStep([d1, d2], d4);
    assert [d1, d2] + [d4] == [d1, d2, d4];
    assert Admit([d1, d2, d4]) == [d1, d2];
    AdmitStep([d1, d2, d4], d5);
    assert [d1, d2, d4] + [d5] == [d1, d2, d4, d5];
  }
}
