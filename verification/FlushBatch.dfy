/** What `list_flush_batch` selects, in one line, and the facts that make the capped
    two-buffer loop and an unstable sort refine it. */
module FlushBatch {
  import opened Hits
  import opened Policy
  import opened Store

  /** The hit's own cost, else the given one. */
  function CostOf(hit: BlockHit, otherwise: int): int {
    if hit.memoryCost.Some? then hit.memoryCost.value else otherwise
  }

  /** Submittable now: the hit's cost is at least the network's and its type is ready. */
  predicate Eligible(p: PendingBlock, netM: int, defaultM: int, minute: int) {
    && CostOf(p.hit, if defaultM > 0 then defaultM else netM) >= netM
    && ReadyToFlush(p.hit.blockType, minute)
  }

  function Take(ps: seq<PendingBlock>, n: nat): (r: seq<PendingBlock>)
  {
    if |ps| <= n then ps else ps[..n]
  }

  /** Eligible blocks before the skip id (late) or not, in bag order. */
  function Select(ps: seq<PendingBlock>, netM: int, defaultM: int, skipBefore: int, minute: int, late: bool)
    : seq<PendingBlock>
  {
    if ps == [] then []
    else
      var front, p := Select(ps[..|ps| - 1], netM, defaultM, skipBefore, minute, late), ps[|ps| - 1];
      if Eligible(p, netM, defaultM, minute) && (skipBefore > 0 && p.id < skipBefore) == late
      then front + [p] else front
  }

  /** The specification: the first cap of eligible-from-skip-on, then eligible-before. */
  function Chosen(ps: seq<PendingBlock>, netM: int, defaultM: int, limit: int, skipBefore: int, minute: int)
    : seq<PendingBlock>
  {
    Take(Select(ps, netM, defaultM, skipBefore, minute, false) + Select(ps, netM, defaultM, skipBefore, minute, true),
         if limit > 0 then limit else |ps|)
  }

  // ---- the order -------------------------------------------------------------------------

  predicate Before(a: PendingBlock, b: PendingBlock) {
    var pa, pb := FlushPriority(a.hit.blockType), FlushPriority(b.hit.blockType);
    if pa != pb then pa < pb else a.id < b.id
  }

  ghost predicate InOrder(ps: seq<PendingBlock>) {
    forall i, j :: 0 <= i < j < |ps| ==> Before(ps[i], ps[j])
  }

  function Insert(ps: seq<PendingBlock>, p: PendingBlock): seq<PendingBlock> {
    if ps == [] then [p]
    else if Before(p, ps[0]) then [p] + ps
    else [ps[0]] + Insert(ps[1..], p)
  }

  /** The list in flush order. */
  function Sorted(ps: seq<PendingBlock>): seq<PendingBlock> {
    if ps == [] then [] else Insert(Sorted(ps[1..]), ps[0])
  }

  lemma {:induction false} InsertContents(ps: seq<PendingBlock>, p: PendingBlock)
    ensures multiset(Insert(ps, p)) == multiset(ps) + multiset{p}
  {
    if ps != [] {
      assert ps == [ps[0]] + ps[1..];
      if !Before(p, ps[0]) {
        InsertContents(ps[1..], p);
      }
    }
  }

  lemma {:induction false} SortedContents(ps: seq<PendingBlock>)
    ensures multiset(Sorted(ps)) == multiset(ps)
  {
    if ps != [] {
      assert ps == [ps[0]] + ps[1..];
      SortedContents(ps[1..]);
      InsertContents(Sorted(ps[1..]), ps[0]);
    }
  }

  lemma SameContents(a: seq<PendingBlock>, b: seq<PendingBlock>)
    requires multiset(a) == multiset(b)
    ensures forall p :: p in a <==> p in b
  {
    forall p
      ensures p in a <==> p in b
    {
      assert p in multiset(a) <==> p in multiset(b);
    }
  }

  lemma {:induction false} InsertInOrder(ps: seq<PendingBlock>, p: PendingBlock)
    requires InOrder(ps)
    requires forall q :: q in ps ==> q.id != p.id
    ensures InOrder(Insert(ps, p))
  {
    if ps != [] && !Before(p, ps[0]) {
      InsertInOrder(ps[1..], p);
      InsertContents(ps[1..], p);
      var rest := Insert(ps[1..], p);
      forall j | 0 <= j < |rest|
        ensures Before(ps[0], rest[j])
      {
        assert rest[j] in multiset(rest);
      }
    }
  }

  lemma {:induction false} SortedInOrder(ps: seq<PendingBlock>)
    requires DistinctIds(ps)
    ensures InOrder(Sorted(ps))
  {
    if ps != [] {
      SortedInOrder(ps[1..]);
      SortedContents(ps[1..]);
      SameContents(Sorted(ps[1..]), ps[1..]);
      InsertInOrder(Sorted(ps[1..]), ps[0]);
    }
  }

  lemma FirstSame(a: seq<PendingBlock>, b: seq<PendingBlock>)
    requires a != [] && b != [] && InOrder(a) && InOrder(b)
    requires forall p :: p in a <==> p in b
    ensures a[0] == b[0]
  {
    hide FlushPriority;
    assert a[0] in b && b[0] in a;
    var i :| 0 <= i < |b| && b[i] == a[0];
    var j :| 0 <= j < |a| && a[j] == b[0];
  }

  /** With distinct ids the order is strict, so any sorted arrangement is the same one:
      that `std::sort` is unstable does not matter. */
  lemma {:induction false} OrderUnique(a: seq<PendingBlock>, b: seq<PendingBlock>)
    requires multiset(a) == multiset(b) && InOrder(a) && InOrder(b)
    ensures a == b
  {
    hide Before;
    SameContents(a, b);
    if a == [] {
      assert |multiset(b)| == 0;
    } else {
      FirstSame(a, b);
      assert a == [a[0]] + a[1..] && b == [b[0]] + b[1..];
      assert multiset(a[1..]) == multiset(a) - multiset{a[0]};
      assert multiset(b[1..]) == multiset(b) - multiset{b[0]};
      OrderUnique(a[1..], b[1..]);
    }
  }

  /** Any arrangement of ps in flush order is Sorted(ps). */
  lemma SortedUnique(ps: seq<PendingBlock>, out: seq<PendingBlock>)
    requires DistinctIds(ps) && multiset(out) == multiset(ps) && InOrder(out)
    ensures out == Sorted(ps)
  {
    SortedContents(ps);
    SortedInOrder(ps);
    OrderUnique(out, Sorted(ps));
  }

  method SortForFlush(ps: seq<PendingBlock>) returns (out: seq<PendingBlock>)
    requires DistinctIds(ps)
    ensures multiset(out) == multiset(ps) && InOrder(out)
  {
    out := Sorted(ps);
    SortedContents(ps);
    SortedInOrder(ps);
  }

  // ---- the selection ------------------------------------------------------------------------

  lemma {:induction false} SelectMembers(ps: seq<PendingBlock>, netM: int, defaultM: int, skipBefore: int,
                                         minute: int, late: bool)
    ensures forall p :: p in Select(ps, netM, defaultM, skipBefore, minute, late) <==>
              p in ps && Eligible(p, netM, defaultM, minute) && (skipBefore > 0 && p.id < skipBefore) == late
    ensures DistinctIds(ps) ==> DistinctIds(Select(ps, netM, defaultM, skipBefore, minute, late))
  {
    hide Eligible;
    if ps != [] {
      var front, p := ps[..|ps| - 1], ps[|ps| - 1];
      SelectMembers(front, netM, defaultM, skipBefore, minute, late);
      assert ps == front + [p];
      var chosen := Select(front, netM, defaultM, skipBefore, minute, late);
      assert forall i :: 0 <= i < |chosen| ==> chosen[i] in front;
    }
  }

  lemma SelectionDistinct(ps: seq<PendingBlock>, netM: int, defaultM: int, limit: int, skipBefore: int, minute: int)
    requires DistinctIds(ps)
    ensures DistinctIds(Chosen(ps, netM, defaultM, limit, skipBefore, minute))
  {
    var a := Select(ps, netM, defaultM, skipBefore, minute, false);
    var b := Select(ps, netM, defaultM, skipBefore, minute, true);
    SelectMembers(ps, netM, defaultM, skipBefore, minute, false);
    SelectMembers(ps, netM, defaultM, skipBefore, minute, true);
    var c: seq<PendingBlock> := a + b;
    forall i, j | 0 <= i < j < |c|
      ensures c[i].id != c[j].id
    {
      if i < |a| <= j {
        assert a[i] in a && b[j - |a|] in b;
      }
    }
  }

  lemma {:induction false} SelectPrefix(ps: seq<PendingBlock>, n: nat, netM: int, defaultM: int, skipBefore: int,
                                        minute: int)
    requires n <= |ps|
    ensures Select(ps[..n], netM, defaultM, skipBefore, minute, false)
            <= Select(ps, netM, defaultM, skipBefore, minute, false)
    decreases |ps|
  {
    if n == |ps| {
      assert ps[..n] == ps;
    } else {
      assert ps[..|ps| - 1][..n] == ps[..n];
      SelectPrefix(ps[..|ps| - 1], n, netM, defaultM, skipBefore, minute);
    }
  }

  /** The scan: two buffers of at most cap blocks, stopping once the first is full. */
  method Scan(ps: seq<PendingBlock>, netM: int, defaultM: int, cap: nat, skipBefore: int, minute: int)
    returns (preferred: seq<PendingBlock>, wrapped: seq<PendingBlock>)
    requires cap > 0
    ensures |preferred| <= cap && preferred <= Select(ps, netM, defaultM, skipBefore, minute, false)
    ensures |preferred| < cap ==>
              && preferred == Select(ps, netM, defaultM, skipBefore, minute, false)
              && wrapped == Take(Select(ps, netM, defaultM, skipBefore, minute, true), cap)
  {
    hide Eligible;
    preferred, wrapped := [], [];
    for i := 0 to |ps|
      invariant |preferred| < cap
      invariant preferred == Select(ps[..i], netM, defaultM, skipBefore, minute, false)
      invariant wrapped == Take(Select(ps[..i], netM, defaultM, skipBefore, minute, true), cap)
    {
      assert ps[..i + 1][..i] == ps[..i];
      var p := ps[i];
      if skipBefore > 0 && p.id < skipBefore {
        if |wrapped| < cap && Eligible(p, netM, defaultM, minute) {
          wrapped := wrapped + [p];
        }
      } else if |preferred| < cap && Eligible(p, netM, defaultM, minute) {
        preferred := preferred + [p];
      }
      if |preferred| >= cap {
        SelectPrefix(ps, i + 1, netM, defaultM, skipBefore, minute);
        return;
      }
    }
    assert ps[..|ps|] == ps;
  }

  /** Topping up from the second buffer. */
  method TopUp(first: seq<PendingBlock>, wrapped: seq<PendingBlock>, cap: nat) returns (joined: seq<PendingBlock>)
    requires |first| <= cap
    ensures joined == first + Take(wrapped, cap - |first|)
  {
    joined := first;
    if |joined| < cap {
      for k := 0 to |wrapped|
        invariant joined == first + wrapped[..k] && |joined| < cap
      {
        joined := joined + [wrapped[k]];
        if |joined| >= cap {
          assert wrapped[..k + 1] == Take(wrapped, cap - |first|);
          return;
        }
      }
      assert wrapped[..|wrapped|] == wrapped;
    }
  }

  method SelectBatch(ps: seq<PendingBlock>, netM: int, defaultM: int, limit: int, skipBefore: int, minute: int)
    returns (chosen: seq<PendingBlock>)
    ensures chosen == Chosen(ps, netM, defaultM, limit, skipBefore, minute)
  {
    var cap: nat := if limit > 0 then limit else |ps|;
    if ps == [] {
      return [];
    }
    var preferred, wrapped := Scan(ps, netM, defaultM, cap, skipBefore, minute);
    chosen := TopUp(preferred, wrapped, cap);
    JoinedIs(Select(ps, netM, defaultM, skipBefore, minute, false),
             Select(ps, netM, defaultM, skipBefore, minute, true), preferred, wrapped, cap);
  }

  /** The two buffers joined are the specified selection. */
  lemma JoinedIs(a: seq<PendingBlock>, b: seq<PendingBlock>, first: seq<PendingBlock>,
                 wrapped: seq<PendingBlock>, cap: nat)
    requires |first| <= cap && first <= a
    requires |first| < cap ==> first == a && wrapped == Take(b, cap)
    ensures first + Take(wrapped, cap - |first|) == Take(a + b, cap)
  {
  }

  // ---- unforwarded -----------------------------------------------------------------------------

  function Unforwarded(ps: seq<PendingBlock>): seq<PendingBlock> {
    if ps == [] then []
    else
      var front, p := Unforwarded(ps[..|ps| - 1]), ps[|ps| - 1];
      if p.forwarded then front else front + [p]
  }

  function FirstUnforwarded(ps: seq<PendingBlock>, limit: int): seq<PendingBlock> {
    if limit > 0 then Take(Unforwarded(ps), limit) else Unforwarded(ps)
  }

  /** The first so many, or with no limit all, of the blocks not yet forwarded. */
  lemma FirstExactly(ps: seq<PendingBlock>, limit: int)
    ensures var all, first := Unforwarded(ps), FirstUnforwarded(ps, limit);
            && first <= all && |first| == (if 0 < limit < |all| then limit else |all|)
            && forall p :: p in all <==> p in ps && !p.forwarded
  {
    UnforwardedMembers(ps);
  }

  lemma {:induction false} UnforwardedMembers(ps: seq<PendingBlock>)
    ensures forall p :: p in Unforwarded(ps) <==> p in ps && !p.forwarded
  {
    if ps != [] {
      UnforwardedMembers(ps[..|ps| - 1]);
      assert ps == ps[..|ps| - 1] + [ps[|ps| - 1]];
    }
  }

  lemma {:induction false} UnforwardedPrefix(ps: seq<PendingBlock>, n: nat)
    requires n <= |ps|
    ensures Unforwarded(ps[..n]) <= Unforwarded(ps)
    decreases |ps|
  {
    if n == |ps| {
      assert ps[..n] == ps;
    } else {
      assert ps[..|ps| - 1][..n] == ps[..n];
      UnforwardedPrefix(ps[..|ps| - 1], n);
    }
  }

  // ---- what the specification says ------------------------------------------------------------

  function CountEligible(ps: seq<PendingBlock>, netM: int, defaultM: int, minute: int): nat {
    if ps == [] then 0
    else
      CountEligible(ps[..|ps| - 1], netM, defaultM, minute)
      + if Eligible(ps[|ps| - 1], netM, defaultM, minute) then 1 else 0
  }

  /** Blocks whose cost is high enough, whether or not their window is open. */
  function CountPayable(ps: seq<PendingBlock>, netM: int, defaultM: int): nat {
    if ps == [] then 0
    else
      CountPayable(ps[..|ps| - 1], netM, defaultM)
      + if CostOf(ps[|ps| - 1].hit, if defaultM > 0 then defaultM else netM) >= netM then 1 else 0
  }

  lemma {:induction false} SelectCounts(ps: seq<PendingBlock>, netM: int, defaultM: int, skipBefore: int, minute: int)
    ensures |Select(ps, netM, defaultM, skipBefore, minute, false)|
            + |Select(ps, netM, defaultM, skipBefore, minute, true)|
            == CountEligible(ps, netM, defaultM, minute) <= |ps|
  {
    if ps != [] {
      SelectCounts(ps[..|ps| - 1], netM, defaultM, skipBefore, minute);
    }
  }

  lemma ChosenLength(ps: seq<PendingBlock>, netM: int, defaultM: int, limit: int, skipBefore: int, minute: int)
    ensures var eligible := CountEligible(ps, netM, defaultM, minute);
            |Chosen(ps, netM, defaultM, limit, skipBefore, minute)| == if 0 < limit < eligible then limit else eligible
  {
    SelectCounts(ps, netM, defaultM, skipBefore, minute);
  }

  lemma ChosenMembers(ps: seq<PendingBlock>, netM: int, defaultM: int, limit: int, skipBefore: int, minute: int)
    ensures var chosen := Chosen(ps, netM, defaultM, limit, skipBefore, minute);
            && (forall p :: p in chosen ==> p in ps && Eligible(p, netM, defaultM, minute))
            && (limit <= 0 ==> forall p :: p in ps && Eligible(p, netM, defaultM, minute) ==> p in chosen)
  {
    var a := Select(ps, netM, defaultM, skipBefore, minute, false);
    var b := Select(ps, netM, defaultM, skipBefore, minute, true);
    SelectCounts(ps, netM, defaultM, skipBefore, minute);
    SelectMembers(ps, netM, defaultM, skipBefore, minute, false);
    SelectMembers(ps, netM, defaultM, skipBefore, minute, true);
    assert forall p :: p in a + b <==> p in a || p in b;
  }

  /** p stands before q. */
  ghost predicate Ranked(ps: seq<PendingBlock>, p: PendingBlock, q: PendingBlock) {
    exists a, b :: 0 <= a < b < |ps| && ps[a] == p && ps[b] == q
  }

  predicate Late(p: PendingBlock, skipBefore: int) { 0 < skipBefore && p.id < skipBefore }

  lemma {:induction false} SelectRanked(ps: seq<PendingBlock>, netM: int, defaultM: int, skipBefore: int, minute: int,
                                        late: bool, i: nat, j: nat)
    requires i < j < |ps| && Late(ps[i], skipBefore) == Late(ps[j], skipBefore) == late
    requires Eligible(ps[i], netM, defaultM, minute) && Eligible(ps[j], netM, defaultM, minute)
    ensures Ranked(Select(ps, netM, defaultM, skipBefore, minute, late), ps[i], ps[j])
    decreases |ps|
  {
    hide Eligible;
    var front := ps[..|ps| - 1];
    var chosen, all := Select(front, netM, defaultM, skipBefore, minute, late),
                       Select(ps, netM, defaultM, skipBefore, minute, late);
    if j < |front| {
      SelectRanked(front, netM, defaultM, skipBefore, minute, late, i, j);
      var a, b :| 0 <= a < b < |chosen| && chosen[a] == ps[i] && chosen[b] == ps[j];
      assert all[a] == ps[i] && all[b] == ps[j];
    } else {
      SelectMembers(front, netM, defaultM, skipBefore, minute, late);
      assert front[i] in chosen;
      var a :| 0 <= a < |chosen| && chosen[a] == ps[i];
      assert all[a] == ps[i] && all[|chosen|] == ps[j];
    }
  }

  lemma TakesFirst(x: seq<PendingBlock>, n: nat, p: PendingBlock, q: PendingBlock)
    requires DistinctIds(x) && Ranked(x, p, q) && q in Take(x, n)
    ensures p in Take(x, n)
  {
    var a, b :| 0 <= a < b < |x| && x[a] == p && x[b] == q;
    var k :| 0 <= k < |Take(x, n)| && Take(x, n)[k] == q;
    assert x[k].id == x[b].id;
    assert Take(x, n)[a] == p;
  }

  lemma RankedJoined(x: seq<PendingBlock>, y: seq<PendingBlock>, p: PendingBlock, q: PendingBlock)
    ensures Ranked(x, p, q) || Ranked(y, p, q) || (p in x && q in y) ==> Ranked(x + y, p, q)
  {
    var z := x + y;
    if Ranked(x, p, q) {
      var a, b :| 0 <= a < b < |x| && x[a] == p && x[b] == q;
      assert z[a] == p && z[b] == q;
    } else if Ranked(y, p, q) {
      var a, b :| 0 <= a < b < |y| && y[a] == p && y[b] == q;
      assert z[|x| + a] == p && z[|x| + b] == q;
    } else if p in x && q in y {
      var a :| 0 <= a < |x| && x[a] == p;
      var b :| 0 <= b < |y| && y[b] == q;
      assert z[a] == p && z[|x| + b] == q;
    }
  }

  /** Which blocks a limit leaves out: a block taken and an eligible one not taken are in
      this order, blocks from the skip id on before those below it, else oldest first. */
  lemma ChosenFirst(ps: seq<PendingBlock>, netM: int, defaultM: int, limit: int, skipBefore: int, minute: int,
                    i: nat, j: nat)
    requires DistinctIds(ps) && i < |ps| && j < |ps|
    requires Eligible(ps[j], netM, defaultM, minute)
    requires ps[i] in Chosen(ps, netM, defaultM, limit, skipBefore, minute)
    requires ps[j] !in Chosen(ps, netM, defaultM, limit, skipBefore, minute)
    ensures if Late(ps[i], skipBefore) == Late(ps[j], skipBefore) then i < j else Late(ps[j], skipBefore)
  {
    var n := if limit > 0 then limit else |ps|;
    var x := Select(ps, netM, defaultM, skipBefore, minute, false);
    var y := Select(ps, netM, defaultM, skipBefore, minute, true);
    SelectionDistinct(ps, netM, defaultM, 0, skipBefore, minute);
    SelectCounts(ps, netM, defaultM, skipBefore, minute);
    ChosenMembers(ps, netM, defaultM, limit, skipBefore, minute);
    SelectMembers(ps, netM, defaultM, skipBefore, minute, false);
    SelectMembers(ps, netM, defaultM, skipBefore, minute, true);
    hide Select, Chosen, Eligible, Ranked;
    if Late(ps[i], skipBefore) == Late(ps[j], skipBefore) && j < i {
      SelectRanked(ps, netM, defaultM, skipBefore, minute, Late(ps[i], skipBefore), j, i);
    }
    RankedJoined(x, y, ps[j], ps[i]);
    if Ranked(x + y, ps[j], ps[i]) {
      ChosenIs(ps, netM, defaultM, limit, skipBefore, minute);
      TakesFirst(x + y, n, ps[j], ps[i]);
    }
  }

  lemma ChosenIs(ps: seq<PendingBlock>, netM: int, defaultM: int, limit: int, skipBefore: int, minute: int)
    ensures var all := Select(ps, netM, defaultM, skipBefore, minute, false)
                       + Select(ps, netM, defaultM, skipBefore, minute, true);
            && Chosen(ps, netM, defaultM, limit, skipBefore, minute) == Take(all, if limit > 0 then limit else |ps|)
            && Chosen(ps, netM, defaultM, 0, skipBefore, minute) == all
  {
    SelectCounts(ps, netM, defaultM, skipBefore, minute);
  }

  /** A batch is as long as the cap and the eligible blocks allow, holds only eligible
      blocks of the bag, without a limit all of them, and is in flush order. */
  lemma BatchContents(ps: seq<PendingBlock>, netM: int, defaultM: int, limit: int, skipBefore: int, minute: int)
    requires DistinctIds(ps)
    ensures var batch := Sorted(Chosen(ps, netM, defaultM, limit, skipBefore, minute));
            var eligible := CountEligible(ps, netM, defaultM, minute);
            && |batch| == (if 0 < limit < eligible then limit else eligible)
            && InOrder(batch) && DistinctIds(batch)
            && (forall p :: p in batch ==> p in ps && Eligible(p, netM, defaultM, minute))
            && (limit <= 0 ==> forall p :: p in ps && Eligible(p, netM, defaultM, minute) ==> p in batch)
  {
    hide Chosen, Eligible, CountEligible, Sorted, Before;
    var chosen := Chosen(ps, netM, defaultM, limit, skipBefore, minute);
    var batch := Sorted(chosen);
    ChosenLength(ps, netM, defaultM, limit, skipBefore, minute);
    ChosenMembers(ps, netM, defaultM, limit, skipBefore, minute);
    SelectionDistinct(ps, netM, defaultM, limit, skipBefore, minute);
    SortedContents(chosen);
    SortedInOrder(chosen);
    SameContents(batch, chosen);
    assert |multiset(batch)| == |multiset(chosen)|;
    SortedDistinct(chosen);
  }

  /** Where a type stands in a flush, its letters in either case. */
  predicate Super(p: PendingBlock) { SameText(p.hit.blockType, "XBLK") }
  predicate Xuni(p: PendingBlock) { SameText(p.hit.blockType, "XUNI") }
  predicate Common(p: PendingBlock) {
    SameText(p.hit.blockType, "XNM") || SameText(p.hit.blockType, "XEN11") || SameText(p.hit.blockType, "NORMAL")
  }

  lemma TypesUpper(p: PendingBlock)
    ensures ToUpper(p.hit.blockType) == "XBLK" <==> Super(p)
    ensures ToUpper(p.hit.blockType) == "XUNI" <==> Xuni(p)
    ensures ToUpper(p.hit.blockType) in {"XNM", "XEN11", "NORMAL"} <==> Common(p)
  {
    var t := p.hit.blockType;
    UpperIs(t, "XBLK");
    UpperIs(t, "XUNI");
    UpperIs(t, "XNM");
    UpperIs(t, "XEN11");
    UpperIs(t, "NORMAL");
  }

  /** Of two blocks in flush order, superblocks come first, then the common ones, then
      XUNI, then the rest; and within a kind the older id. */
  lemma OrderExactly(a: PendingBlock, b: PendingBlock)
    ensures Before(a, b)
            <==> || (Super(a) && !Super(b))
                 || (Common(a) && !Super(b) && !Common(b))
                 || (Xuni(a) && !Super(b) && !Common(b) && !Xuni(b))
                 || (a.id < b.id && Super(a) == Super(b) && Common(a) == Common(b) && Xuni(a) == Xuni(b))
  {
    hide SameText, ToUpper;
    TypesUpper(a);
    TypesUpper(b);
  }

  /** A block may go now: it, or the bag's own m where it has none, costs at least the
      network's m, and XUNI goes only in the five minutes around the full hour. */
  lemma EligibleExactly(p: PendingBlock, netM: int, defaultM: int, minute: int)
    requires 0 <= minute < 60
    ensures Eligible(p, netM, defaultM, minute)
            <==> && (match p.hit.memoryCost case Some(m) => m >= netM case None => defaultM <= 0 || defaultM >= netM)
                 && (Xuni(p) ==> (minute + 5) % 60 < 10)
  {
    TypesUpper(p);
    hide SameText, ToUpper;
  }

  /** The counts are the numbers of blocks. */
  lemma {:induction false} EligibleCounted(ps: seq<PendingBlock>, netM: int, defaultM: int, minute: int)
    ensures CountEligible(ps, netM, defaultM, minute)
            == |set i | 0 <= i < |ps| && Eligible(ps[i], netM, defaultM, minute)|
  {
    hide Eligible;
    if ps != [] {
      var front, k := ps[..|ps| - 1], |ps| - 1;
      EligibleCounted(front, netM, defaultM, minute);
      var e, e' := set i | 0 <= i < k && Eligible(front[i], netM, defaultM, minute),
                   set i | 0 <= i < |ps| && Eligible(ps[i], netM, defaultM, minute);
      assert e' == if Eligible(ps[k], netM, defaultM, minute) then e + {k} else e;
    }
  }

  lemma {:induction false} PayableCounted(ps: seq<PendingBlock>, netM: int, defaultM: int)
    ensures CountPayable(ps, netM, defaultM) == |set i | 0 <= i < |ps| && Payable(ps[i], netM, defaultM)|
  {
    hide Payable;
    if ps != [] {
      var front, k := ps[..|ps| - 1], |ps| - 1;
      PayableCounted(front, netM, defaultM);
      PayableIs(ps[k], netM, defaultM);
      var c, c' := set i | 0 <= i < k && Payable(front[i], netM, defaultM),
                   set i | 0 <= i < |ps| && Payable(ps[i], netM, defaultM);
      assert c' == if Payable(ps[k], netM, defaultM) then c + {k} else c;
    }
  }

  /** The block's own cost is enough or, if it has none, the given one, or none is given. */
  predicate Payable(p: PendingBlock, netM: int, defaultM: int) {
    match p.hit.memoryCost case Some(m) => m >= netM case None => defaultM <= 0 || defaultM >= netM
  }

  lemma PayableIs(p: PendingBlock, netM: int, defaultM: int)
    ensures CostOf(p.hit, if defaultM > 0 then defaultM else netM) >= netM <==> Payable(p, netM, defaultM)
  {
  }

  /** Rearranging keeps ids distinct. */
  lemma SortedDistinct(ps: seq<PendingBlock>)
    requires DistinctIds(ps)
    ensures DistinctIds(Sorted(ps))
  {
    var out := Sorted(ps);
    SortedContents(ps);
    SortedInOrder(ps);
    SameContents(out, ps);
    forall i, j | 0 <= i < j < |out|
      ensures out[i].id != out[j].id
    {
      assert out[i] in ps && out[j] in ps;
      assert Before(out[i], out[j]);
    }
  }
}
