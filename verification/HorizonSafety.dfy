/** What every run of the horizon keeps, exactly which events it does not, and
    that it settles. */
module HorizonSafety {
  import opened ChunkWorld
  import opened Fog
  import opened HorizonModel

  // ----- Building -----

  /** One summary built: `p` is dealt with, and no other position touched. */
  lemma BuildOneMeans(past: FogTest, h: Horizon, p: Pos)
    ensures var b := BuildOne(past, h, p);
      && b == h.(shown := b.shown, beyond := b.beyond)
      && (p in h.summaries ==> Right(b, p) || HeldBack(past, b, p, true))
      && (p in b.beyond ==> p in h.beyond || PastTheFog(past, b, p))
      && forall q :: q != p ==> (q in b.beyond <==> q in h.beyond) && (q in b.shown <==> q in h.shown)
                                && (q in h.shown ==> b.shown[q] == h.shown[q])
  {
  }

  /** A batch built: its own positions are dealt with, the others untouched. */
  lemma {:induction false} BuildAllMeans(past: FogTest, h: Horizon, due: seq<Pos>)
    ensures var b := BuildAll(past, h, due);
      && b == h.(shown := b.shown, beyond := b.beyond)
      && (forall p :: p in due && p in h.summaries ==> Right(b, p) || HeldBack(past, b, p, true))
      && (forall p :: p in b.beyond ==> p in h.beyond || PastTheFog(past, b, p))
      && (forall q :: q !in due ==> (q in b.beyond <==> q in h.beyond) && (q in b.shown <==> q in h.shown)
                                    && (q in h.shown ==> b.shown[q] == h.shown[q]))
    decreases |due|
  {
    if due != [] {
      var front, last := due[..|due| - 1], due[|due| - 1];
      assert due == front + [last];
      BuildAllMeans(past, h, front);
      BuildOneMeans(past, BuildAll(past, h, front), last);
    }
  }

  /** A frame's building: everything taken is dealt with or waiting again. */
  lemma BuildMeans(past: FogTest, h: Horizon, due: seq<Pos>, n: nat)
    requires n <= |due|
    ensures var b := Build(past, h, due, n);
      && b == h.(shown := b.shown, beyond := b.beyond, stale := b.stale)
      && b.stale == h.stale - Members(due) + Members(due[n..])
      && (forall p :: p in due[..n] && p in h.summaries ==> Right(b, p) || HeldBack(past, b, p, true))
      && (forall p :: p in b.beyond ==> p in h.beyond || PastTheFog(past, b, p))
      && (forall q :: q !in due[..n] ==> (q in b.beyond <==> q in h.beyond) && (q in b.shown <==> q in h.shown)
                                         && (q in h.shown ==> b.shown[q] == h.shown[q]))
  {
    BuildAllMeans(past, h.(stale := h.stale - Members(due)), due[..n]);
  }

  lemma Split(due: seq<Pos>, n: nat, p: Pos)
    requires n <= |due|
    ensures p in due <==> p in due[..n] || p in due[n..]
  {
    assert due == due[..n] + due[n..];
  }

  lemma BuildKeeps(past: FogTest, h: Horizon, due: seq<Pos>, n: nat, hidden: bool)
    requires n <= |due|
    ensures AllCovered(past, h, hidden) ==> AllCovered(past, Build(past, h, due, n), hidden)
    ensures AllHeldRightly(past, h) ==> AllHeldRightly(past, Build(past, h, due, n))
  {
    BuildMeans(past, h, due, n);
    var b := Build(past, h, due, n);
    forall p
      ensures Covered(past, h, p, hidden) ==> Covered(past, b, p, hidden)
      ensures HeldRightly(past, h, p) ==> HeldRightly(past, b, p)
    {
      Split(due, n, p);
    }
  }

  lemma RejudgeKeeps(past: FogTest, h: Horizon, hidden: bool)
    ensures AllCovered(past, h, hidden) ==> AllCovered(past, Rejudge(past, h), hidden)
    ensures Judges(h) || AllHeldRightly(past, h) ==> AllHeldRightly(past, Rejudge(past, h))
    ensures Judges(h) && AllCovered(past, h, false) ==> AllCovered(past, Rejudge(past, h), true)
  {
    var j := Rejudge(past, h);
    forall p ensures Judges(h) && Covered(past, h, p, false) ==> Covered(past, j, p, true) {}
    forall p ensures Covered(past, h, p, hidden) ==> Covered(past, j, p, hidden) {}
    if Judges(h) {
      forall p ensures HeldRightly(past, j, p) {}
    }
  }

  // ----- Coverage, over every run -----

  /** Held, and nobody is going to look at it again: neither waiting nor held
      back, whatever the list says of one that is drawn. */
  predicate Idle(past: FogTest, h: Horizon, q: Pos, hidden: bool) {
    q in h.summaries && q !in h.stale && !HeldBack(past, h, q, hidden)
  }

  /** The summary across face `k` of `p` is idle and buried. */
  predicate Uncovers(past: FogTest, h: Horizon, p: Pos, k: Face, hidden: bool) {
    var q := Side(p, k);
    Idle(past, h, q, hidden) && !h.summaries[q].IsEmpty() && Buried(h.summaries, q)
  }

  /** The summary under `p` is idle and drawn, and the sea over it begins or ends
      somewhere else in `g`. */
  predicate Recaps(past: FogTest, h: Horizon, g: Horizon, p: Pos, hidden: bool) {
    var q := Side(p, UNDER);
    Idle(past, h, q, hidden) && !Hidden(h.summaries, q) && q in g.summaries && FarOf(g, q) != FarOf(h, q)
  }

  /** The event changes what an idle summary is worth: it takes a solid summary
      from beside one it was burying, or changes what the sea under it is drawn
      against, or what is drawn as sea at all; or, if `hidden`, it brings into
      sight one that is held back. */
  ghost predicate Exposes(past: FogTest, h: Horizon, e: Event, hidden: bool) {
    match e
    case Replaced(p) => p in h.summaries && ((exists k: Face :: Uncovers(past, h, p, k, hidden)) || Recaps(past, h, Replace(h, p), p, hidden))
    case Unloaded(p) => (p in h.summaries && exists k: Face :: Uncovers(past, h, p, k, hidden)) || Recaps(past, h, Unload(h, p), p, hidden)
    case Flooded(p, layer) => Recaps(past, h, Flood(h, p, layer), p, hidden)
    case Tabled(fluids) =>
      exists q :: Idle(past, h, q, hidden) && !Hidden(h.summaries, q) && FarOf(h.(fluids := fluids), q) != FarOf(h, q)
    case Fogged(reach) => hidden && exists q :: Withheld(h, q) && !PastTheFog(past, h.(reach := Some(reach)), q)
    case Moved(camera) => hidden && exists q :: Withheld(h, q) && !PastTheFog(past, h.(camera := camera), q)
    case _ => false
  }

  lemma SideOfSide(p: Pos, k: Face)
    ensures Side(Side(p, k), Opposite(k)) == p && Side(p, k) != p
  {
  }

  /** A summary's burial is a matter of it and its six sides. */
  lemma BuriedLocally(m: map<Pos, Summary>, n: map<Pos, Summary>, p: Pos, q: Pos)
    requires q != p && q !in Sides(p)
    requires forall r :: r != p ==> Get(m, r) == Get(n, r)
    ensures Buried(m, q) == Buried(n, q)
  {
    forall k: Face ensures Side(q, k) != p && Filled(m, Side(q, k)) == Filled(n, Side(q, k)) {
      SideOfSide(q, k);
      assert Get(m, Side(q, k)) == Get(n, Side(q, k));
    }
    assert Get(m, q) == Get(n, q);
  }

  /** A far mesh is a matter of its summary and the position over it. */
  lemma FarLocally(h: Horizon, g: Horizon, p: Pos, q: Pos)
    requires g.fluids == h.fluids && q != p && q != Side(p, UNDER) && q in h.summaries
    requires forall r :: r != p ==> Get(h.summaries, r) == Get(g.summaries, r) && Get(h.fluid, r) == Get(g.fluid, r)
    ensures q in g.summaries && FarOf(g, q) == FarOf(h, q)
  {
    var over := Side(q, OVER);
    SideOfSide(q, OVER);
    assert over != p;
    assert Get(h.summaries, q) == Get(g.summaries, q) && Get(h.summaries, over) == Get(g.summaries, over);
    assert Get(h.fluid, over) == Get(g.fluid, over);
  }

  lemma ArriveKeeps(past: FogTest, h: Horizon, p: Pos, s: Summary, hidden: bool)
    requires AllCovered(past, h, hidden)
    ensures AllCovered(past, Arrive(h, p, s), hidden)
  {
    var a := Arrive(h, p, s);
    forall q ensures Covered(past, a, q, hidden) {
      assert Covered(past, h, q, hidden);
      if q in a.summaries && q != p && q !in Sides(p) {
        BuriedLocally(h.summaries, a.summaries, p, q);
        assert q != Side(p, UNDER);
        FarLocally(h, a, p, q);
      }
    }
  }

  /** A step that leaves queue, screen and held-back set alone for each idle
      summary keeps the horizon covered if and only if each is worth what it
      was. */
  lemma LooksExact(past: FogTest, h: Horizon, g: Horizon, hidden: bool)
    requires AllCovered(past, h, hidden) && g.camera == h.camera && g.reach == h.reach
    requires forall q :: q in g.summaries && q !in g.stale ==>
      q in h.summaries && q !in h.stale && (q in g.beyond <==> q in h.beyond) && Get(g.shown, q) == Get(h.shown, q)
    ensures AllCovered(past, g, hidden) <==> forall q :: Idle(past, g, q, hidden) ==> Look(g, q) == Look(h, q)
  {
    forall q | Idle(past, g, q, hidden) ensures Covered(past, g, q, hidden) <==> Look(g, q) == Look(h, q) {
      assert Covered(past, h, q, hidden);
    }
    if forall q :: Idle(past, g, q, hidden) ==> Look(g, q) == Look(h, q) {
      forall q ensures Covered(past, g, q, hidden) {}
    } else {
      var q :| Idle(past, g, q, hidden) && Look(g, q) != Look(h, q);
      assert !Covered(past, g, q, hidden);
    }
  }

  /** What a change at one position does to the summaries of the others. */
  lemma NeighbourLook(h: Horizon, g: Horizon, p: Pos, q: Pos)
    requires g.fluids == h.fluids && q != p && q in h.summaries && q in g.summaries && h.summaries[q] == g.summaries[q]
    requires g.summaries == h.summaries || g.summaries == h.summaries - {p}
    requires forall r :: r != p ==> Get(h.fluid, r) == Get(g.fluid, r)
    ensures Look(g, q) != Look(h, q) <==>
      || (Hidden(h.summaries, q) && !Hidden(g.summaries, q))
      || (q == Side(p, UNDER) && !Hidden(h.summaries, q) && FarOf(g, q) != FarOf(h, q))
    ensures Hidden(h.summaries, q) && !Hidden(g.summaries, q) <==>
      p in h.summaries && p !in g.summaries && q in Sides(p) && !h.summaries[q].IsEmpty() && Buried(h.summaries, q)
  {
    forall r | r != p ensures Get(h.summaries, r) == Get(g.summaries, r) {}
    if Buried(g.summaries, q) {
      forall k: Face ensures Filled(h.summaries, Side(q, k)) {
        assert Filled(g.summaries, Side(q, k));
      }
    }
    if q != Side(p, UNDER) {
      FarLocally(h, g, p, q);
    }
    if q in Sides(p) {
      var k: Face :| q == Side(p, k);
      SideOfSide(p, k);
      assert Side(q, Opposite(k)) == p;
      if p !in g.summaries {
        assert !Filled(g.summaries, Side(q, Opposite(k)));
      }
    } else {
      BuriedLocally(h.summaries, g.summaries, p, q);
    }
  }

  /** A summary goes, or the fluid of a position with none changes. */
  lemma ChangeExact(past: FogTest, h: Horizon, g: Horizon, p: Pos, hidden: bool)
    requires AllCovered(past, h, hidden) && g.camera == h.camera && g.reach == h.reach
    requires g.fluids == h.fluids && h.stale <= g.stale <= h.stale + {p}
    requires g.summaries == h.summaries || g.summaries == h.summaries - {p}
    requires p in g.summaries && p !in g.stale ==> g.shown == h.shown && g.beyond == h.beyond
    requires forall r :: r != p ==>
      Get(h.fluid, r) == Get(g.fluid, r) && (r in g.beyond <==> r in h.beyond) && Get(g.shown, r) == Get(h.shown, r)
    ensures AllCovered(past, g, hidden) <==>
      !(p in h.summaries && p !in g.summaries && exists k: Face :: Uncovers(past, h, p, k, hidden)) && !Recaps(past, h, g, p, hidden)
  {
    LooksExact(past, h, g, hidden);
    var gone := p in h.summaries && p !in g.summaries;
    if gone && exists k: Face :: Uncovers(past, h, p, k, hidden) {
      var k: Face :| Uncovers(past, h, p, k, hidden);
      SideOfSide(p, k);
      ChangedLook(past, h, g, p, Side(p, k), hidden);
    } else if Recaps(past, h, g, p, hidden) {
      SideOfSide(p, UNDER);
      ChangedLook(past, h, g, p, Side(p, UNDER), hidden);
    } else {
      forall q | Idle(past, g, q, hidden) ensures Look(g, q) == Look(h, q) {
        if q == p {
          SelfLook(h, g, p);
        } else {
          NeighbourLook(h, g, p, q);
          if gone && q in Sides(p) {
            var k: Face :| q == Side(p, k);
            assert !Uncovers(past, h, p, k, hidden);
          }
        }
      }
    }
  }

  lemma ChangedLook(past: FogTest, h: Horizon, g: Horizon, p: Pos, q: Pos, hidden: bool)
    requires g.fluids == h.fluids && q in Sides(p) && q != p && Idle(past, h, q, hidden) && g.stale <= h.stale + {p}
    requires g.summaries == h.summaries || g.summaries == h.summaries - {p}
    requires g.camera == h.camera && g.reach == h.reach
    requires forall r :: r != p ==>
      Get(h.fluid, r) == Get(g.fluid, r) && (r in g.beyond <==> r in h.beyond) && Get(g.shown, r) == Get(h.shown, r)
    requires || (p in h.summaries && p !in g.summaries && !h.summaries[q].IsEmpty() && Buried(h.summaries, q))
             || (q == Side(p, UNDER) && !Hidden(h.summaries, q) && FarOf(g, q) != FarOf(h, q))
    ensures Idle(past, g, q, hidden) && Look(g, q) != Look(h, q)
  {
    NeighbourLook(h, g, p, q);
  }

  /** A position's own fluid is not its own summary's business. */
  lemma SelfLook(h: Horizon, g: Horizon, p: Pos)
    requires g.fluids == h.fluids && g.summaries == h.summaries && p in h.summaries
    requires forall r :: r != p ==> Get(h.fluid, r) == Get(g.fluid, r)
    ensures Look(g, p) == Look(h, p)
  {
    SideOfSide(p, OVER);
    assert Get(h.fluid, Side(p, OVER)) == Get(g.fluid, Side(p, OVER));
  }

  lemma TableExact(past: FogTest, h: Horizon, fluids: set<int>, hidden: bool)
    requires AllCovered(past, h, hidden)
    ensures AllCovered(past, h.(fluids := fluids), hidden) <==> !Exposes(past, h, Tabled(fluids), hidden)
  {
    var g := h.(fluids := fluids);
    LooksExact(past, h, g, hidden);
    forall q ensures Idle(past, g, q, hidden) <==> Idle(past, h, q, hidden) {}
    if Exposes(past, h, Tabled(fluids), hidden) {
      var q :| Idle(past, h, q, hidden) && !Hidden(h.summaries, q) && FarOf(g, q) != FarOf(h, q);
      assert Idle(past, g, q, hidden) && Look(g, q) != Look(h, q);
    }
  }

  /** Nothing in sight is wrong exactly when nothing is lost and what is listed as
      held back is rightly so. */
  lemma SightIsBoth(past: FogTest, h: Horizon)
    ensures AllCovered(past, h, true) <==> AllCovered(past, h, false) && AllHeldRightly(past, h)
  {
    forall p ensures Covered(past, h, p, true) <==> Covered(past, h, p, false) && HeldRightly(past, h, p) {}
  }

  /** Only the camera or the fog changes. */
  lemma ViewpointExact(past: FogTest, h: Horizon, g: Horizon, hidden: bool)
    requires AllCovered(past, h, hidden) && g == h.(camera := g.camera, reach := g.reach)
    ensures AllCovered(past, g, hidden) <==> !(hidden && exists q :: Withheld(h, q) && !PastTheFog(past, g, q))
  {
    forall q ensures Covered(past, g, q, hidden) <==> !(hidden && Withheld(h, q) && !PastTheFog(past, g, q)) {
      assert Covered(past, h, q, hidden);
      if q in h.summaries {
        assert Right(g, q) == Right(h, q);
      }
    }
  }

  /** Every event of every kind keeps the horizon covered, except exactly those
      that change what an idle summary is worth. */
  lemma StepExact(past: FogTest, h: Horizon, e: Event, hidden: bool)
    requires AllCovered(past, h, hidden) && Possible(past, h, e)
    ensures AllCovered(past, Step(past, h, e), hidden) <==> !Exposes(past, h, e, hidden)
  {
    match e
    case Arrives(p, s) => ArriveKeeps(past, h, p, s, hidden);
    case Replaced(p) =>
      ChangeExact(past, h, Replace(h, p), p, hidden);
    case Unloaded(p) => ChangeExact(past, h, Unload(h, p), p, hidden);
    case Flooded(p, layer) => ChangeExact(past, h, Flood(h, p, layer), p, hidden);
    case Tabled(fluids) => TableExact(past, h, fluids, hidden);
    case Entered =>
    case Fogged(_) => ViewpointExact(past, h, Step(past, h, e), hidden);
    case Moved(_) => ViewpointExact(past, h, Step(past, h, e), hidden);
    case Drawn(due, allowed) =>
      RejudgeKeeps(past, h, hidden);
      BuildKeeps(past, Rejudge(past, h), due, GotThrough(|due|, allowed), hidden);
  }

  /** Any interleaving of possible events. */
  ghost predicate IsRun(past: FogTest, h: Horizon, es: seq<Event>)
    decreases |es|
  {
    es == [] || (Possible(past, h, es[0]) && IsRun(past, Step(past, h, es[0]), es[1..]))
  }

  /** None of them exposes anything. */
  ghost predicate NoneExposes(past: FogTest, h: Horizon, es: seq<Event>, hidden: bool)
    decreases |es|
  {
    es == [] || (!Exposes(past, h, es[0], hidden) && NoneExposes(past, Step(past, h, es[0]), es[1..], hidden))
  }

  function After(past: FogTest, h: Horizon, es: seq<Event>): Horizon
    decreases |es|
  {
    if es == [] then h else After(past, Step(past, h, es[0]), es[1..])
  }

  /** Over any run of events that expose nothing, nothing far is lost. */
  lemma {:induction false} RunKeeps(past: FogTest, h: Horizon, es: seq<Event>, hidden: bool)
    requires AllCovered(past, h, hidden) && IsRun(past, h, es) && NoneExposes(past, h, es, hidden)
    ensures AllCovered(past, After(past, h, es), hidden)
    decreases |es|
  {
    if es != [] {
      StepExact(past, h, es[0], hidden);
      RunKeeps(past, Step(past, h, es[0]), es[1..], hidden);
    }
  }

  // ----- Settling -----

  lemma DueShrinks(stale: set<Pos>, due: seq<Pos>, n: nat)
    requires FirstOf(stale, due) && n <= |due| && (stale != {} ==> n > 0)
    ensures stale - Members(due) + Members(due[n..]) <= stale
    ensures stale != {} ==> |stale - Members(due) + Members(due[n..])| < |stale|
  {
    var rest := stale - Members(due) + Members(due[n..]);
    forall p | p in rest ensures p in stale { Split(due, n, p); }
    if stale != {} {
      assert due[0] in stale;
      forall i | n <= i < |due| ensures due[i] != due[0] { assert Before(due[0], due[i]); }
      assert due[0] !in rest && rest < stale;
      Fewer(rest, stale);
    }
  }

  lemma Fewer<T>(a: set<T>, b: set<T>)
    requires a < b
    ensures |a| < |b|
  {
    var x :| x in b && x !in a;
    assert a <= b - {x};
    NotMore(a, b - {x});
  }

  lemma {:induction false} NotMore<T>(a: set<T>, b: set<T>)
    requires a <= b
    ensures |a| <= |b|
    decreases |a|
  {
    if a != {} {
      var x :| x in a;
      NotMore(a - {x}, b - {x});
    }
  }

  /** Judged here already: judging again would put nothing back in the queue. */
  ghost predicate Judged(past: FogTest, h: Horizon) {
    Judges(h) ==> forall p :: p in h.beyond && p in h.summaries ==> PastTheFog(past, h, p)
  }

  lemma FrameJudges(past: FogTest, h: Horizon, due: seq<Pos>, allowed: nat)
    ensures Judged(past, Frame(past, h, due, allowed))
  {
    BuildMeans(past, Rejudge(past, h), due, GotThrough(|due|, allowed));
  }

  lemma FrameShortens(past: FogTest, h: Horizon, due: seq<Pos>, allowed: nat)
    requires Judged(past, h) && FirstOf(Rejudge(past, h).stale, due)
    ensures Rejudge(past, h).stale == h.stale
    ensures h.stale != {} ==> |Frame(past, h, due, allowed).stale| < |h.stale|
    ensures h.stale == {} ==> Frame(past, h, due, allowed).stale == {}
  {
    assert Rejudge(past, h).stale == h.stale;
    var n := GotThrough(|due|, allowed);
    BuildMeans(past, h, due, n);
    BuildMeans(past, Rejudge(past, h), due, n);
    if h.stale != {} { NotEmpty(h.stale); }
    DueShrinks(h.stale, due, n);
  }

  lemma NotEmpty<T>(s: set<T>)
    requires s != {}
    ensures |s| > 0
  {
  }

  /** Nothing but frames. */
  predicate OnlyFrames(es: seq<Event>) {
    forall i :: 0 <= i < |es| ==> es[i].Drawn?
  }

  lemma {:induction false} QueueEmpties(past: FogTest, h: Horizon, es: seq<Event>)
    requires Judged(past, h) && IsRun(past, h, es) && OnlyFrames(es) && |es| >= |h.stale|
    ensures After(past, h, es).stale == {}
    decreases |es|
  {
    if es != [] {
      var e := es[0];
      FrameShortens(past, h, e.due, e.allowed);
      FrameJudges(past, h, e.due, e.allowed);
      QueueEmpties(past, Step(past, h, e), es[1..]);
    }
  }

  lemma RejudgedQueue(past: FogTest, h: Horizon)
    ensures |Rejudge(past, h).stale| <= |h.stale| + |h.beyond|
  {
    var j := Rejudge(past, h);
    assert j.stale <= h.stale + h.beyond;
    NotMore(j.stale, h.stale + h.beyond);
  }

  /** Frames keep both that nothing is lost and that what is held back is
      hidden. */
  lemma {:induction false} FramesKeep(past: FogTest, h: Horizon, es: seq<Event>, hidden: bool)
    requires IsRun(past, h, es) && OnlyFrames(es)
    ensures AllCovered(past, h, hidden) ==> AllCovered(past, After(past, h, es), hidden)
    ensures AllHeldRightly(past, h) ==> AllHeldRightly(past, After(past, h, es))
    decreases |es|
  {
    if es != [] {
      var e := es[0];
      RejudgeKeeps(past, h, hidden);
      BuildKeeps(past, Rejudge(past, h), e.due, GotThrough(|e.due|, e.allowed), hidden);
      FramesKeep(past, Step(past, h, e), es[1..], hidden);
    }
  }

  /** Left alone with any time at all, the horizon settles: as many frames as
      there are summaries waiting or held back, and one more, and every summary
      held is right on screen or held back and not drawn; and out of sight then, if
      nothing in sight was wrong before. */
  lemma Settles(past: FogTest, h: Horizon, es: seq<Event>, p: Pos, hidden: bool)
    requires AllCovered(past, h, hidden) && IsRun(past, h, es) && OnlyFrames(es)
    requires |es| > |h.stale| + |h.beyond|
    ensures var end := After(past, h, es);
      && end.stale == {}
      && (p in end.summaries ==> Right(end, p) || HeldBack(past, end, p, hidden))
  {
    var next := Step(past, h, es[0]);
    FirstFrame(past, h, es[0].due, es[0].allowed);
    QueueEmpties(past, next, es[1..]);
    FramesKeep(past, h, es, hidden);
    assert Covered(past, After(past, h, es), p, hidden);
  }

  lemma FirstFrame(past: FogTest, h: Horizon, due: seq<Pos>, allowed: nat)
    requires FirstOf(Rejudge(past, h).stale, due)
    ensures Judged(past, Frame(past, h, due, allowed))
    ensures |Frame(past, h, due, allowed).stale| <= |h.stale| + |h.beyond|
  {
    var j, n := Rejudge(past, h), GotThrough(|due|, allowed);
    FrameJudges(past, h, due, allowed);
    BuildMeans(past, j, due, n);
    RejudgedQueue(past, h);
    if j.stale != {} { NotEmpty(j.stale); }
    DueShrinks(j.stale, due, n);
    NotMore(Frame(past, h, due, allowed).stale, j.stale);
  }
}
