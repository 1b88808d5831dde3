/**
 The start page of bootstrap/v1/boot.js: its meter, and the four workers that bring the interface down.
 Elapsed times are in milliseconds since the page started, over exact reals.
 */
module Meter {
  import opened Base

  const WORK_WEIGHT := 0.7
  const TIME_WEIGHT := 0.3
  const TIME_SPAN := 1200.0
  const FULL := 0.999
  const MANIFEST_AT := 0.45
  const SHELL_AT := 0.92

  // ----- The download ---------------------------------------------------------------------------

  type Path = string

  datatype Worker = Waiting | Asking(path: Path) | Returned | Broken

  /** @p asked lists every path given to `tunnel.fetch`, in order. */
  datatype Pool = Pool(files: seq<Path>, queue: seq<Path>, workers: seq<Worker>, done: nat, asked: seq<Path>)

  const NO_POOL := Pool([], [], [Returned, Returned, Returned, Returned], 0, [])

  /** One turn of the loop: shift a path, and leave if there was none or it was empty. */
  function Take(p: Pool, i: nat): Pool
    requires i < |p.workers|
  {
    if p.queue == [] then p.(workers := p.workers[i := Returned])
    else if p.queue[0] == "" then p.(workers := p.workers[i := Returned], queue := p.queue[1..])
    else p.(workers := p.workers[i := Asking(p.queue[0])], queue := p.queue[1..], asked := p.asked + [p.queue[0]])
  }

  function Start(files: seq<Path>): Pool {
    Take(Take(Take(Take(Pool(files, files, [Waiting, Waiting, Waiting, Waiting], 0, []), 0), 1), 2), 3)
  }

  function Answered(p: Pool, i: nat): Pool
    requires i < |p.workers|
  {
    Take(p.(done := p.done + 1), i)
  }

  function Threw(p: Pool, i: nat): Pool
    requires i < |p.workers|
  {
    p.(workers := p.workers[i := Broken])
  }

  predicate Busy(w: Worker) {
    w.Asking? || w.Waiting?
  }

  function Count(ws: seq<Worker>, kind: Worker -> bool): nat {
    if ws == [] then 0 else Count(ws[..|ws| - 1], kind) + if kind(ws[|ws| - 1]) then 1 else 0
  }

  lemma {:induction false} CountAfter(ws: seq<Worker>, i: nat, w: Worker, kind: Worker -> bool)
    requires i < |ws|
    ensures Count(ws[i := w], kind) + (if kind(ws[i]) then 1 else 0) == Count(ws, kind) + (if kind(w) then 1 else 0)
  {
    var n := |ws| - 1;
    if i < n {
      assert ws[i := w][..n] == ws[..n][i := w];
      CountAfter(ws[..n], i, w, kind);
    } else {
      assert ws[i := w][..n] == ws[..n];
    }
  }

  /** The non-empty paths, in order. */
  function NonEmpty(files: seq<Path>): seq<Path> {
    if files == [] then [] else (if files[0] == "" then [] else [files[0]]) + NonEmpty(files[1..])
  }

  function Empties(files: seq<Path>): nat {
    if files == [] then 0 else (if files[0] == "" then 1 else 0) + Empties(files[1..])
  }

  /** What @p lives workers ask for when each empty path costs one of them. */
  function Served(files: seq<Path>, lives: nat): seq<Path> {
    if files == [] || lives == 0 then []
    else if files[0] == "" then Served(files[1..], lives - 1)
    else [files[0]] + Served(files[1..], lives)
  }

  /** Fewer empty paths than @p lives before each non-empty one. */
  predicate InTime(files: seq<Path>, lives: nat) {
    forall k :: 0 <= k < |files| && files[k] != "" ==> Empties(files[..k]) < lives
  }

  lemma {:induction false} ServesAllIff(files: seq<Path>, lives: nat)
    ensures Served(files, lives) == NonEmpty(files) <==> InTime(files, lives)
  {
    hide InTime;
    if lives == 0 {
      NothingServed(files);
    } else if files == [] {
      NoneLate(lives);
    } else {
      var rest := files[1..];
      var l := if files[0] == "" then lives - 1 else lives;
      ServesAllIff(rest, l);
      Shifted(files, lives);
      assert ([files[0]] + Served(rest, l))[1..] == Served(rest, l);
      assert ([files[0]] + NonEmpty(rest))[1..] == NonEmpty(rest);
    }
  }

  lemma NoneLate(lives: nat)
    ensures InTime([], lives)
  {
  }

  lemma Shifted(files: seq<Path>, lives: nat)
    requires files != [] && lives > 0
    ensures InTime(files, lives) <==> InTime(files[1..], if files[0] == "" then lives - 1 else lives)
  {
    var rest := files[1..];
    forall k: nat | 1 <= k < |files|
      ensures Empties(files[..k]) == (if files[0] == "" then 1 else 0) + Empties(rest[..k - 1]) && files[k] == rest[k - 1] {
      assert files[..k][1..] == rest[..k - 1];
    }
    if InTime(files, lives) {
      forall k: nat | k < |rest| && rest[k] != ""
        ensures Empties(rest[..k]) < if files[0] == "" then lives - 1 else lives {
        assert files[k + 1] == rest[k];
      }
    }
  }

  lemma {:induction false} NothingServed(files: seq<Path>)
    ensures NonEmpty(files) == [] <==> InTime(files, 0)
  {
    if files != [] {
      NothingServed(files[1..]);
      forall k: nat | 1 <= k < |files| ensures files[k] == files[1..][k - 1] { }
    }
  }

  lemma {:induction false} FewerLivesServeLess(files: seq<Path>, lives: nat)
    requires lives > 0
    ensures Served(files, lives - 1) <= Served(files, lives)
  {
    if files != [] && lives > 1 {
      if files[0] == "" { FewerLivesServeLess(files[1..], lives - 1); }
      else { FewerLivesServeLess(files[1..], lives); }
    }
  }

  lemma {:induction false} ServedIsShort(files: seq<Path>, lives: nat)
    ensures |Served(files, lives)| <= |files|
  {
    if files != [] && lives > 0 {
      ServedIsShort(files[1..], if files[0] == "" then lives - 1 else lives);
    }
  }

  ghost function Live(p: Pool): nat {
    Count(p.workers, Busy)
  }

  /** Gave a path to `tunnel.fetch` that never came back. */
  predicate Out(w: Worker) {
    w.Asking? || w.Broken?
  }

  predicate Sound(p: Pool) {
    forall w :: w in p.workers ==> !w.Broken?
  }

  const WORKERS := 4

  /** Asked and still to be asked are what four workers serve, less what a broken one leaves behind. */
  ghost predicate PoolInv(p: Pool) {
    && |p.workers| == WORKERS
    && p.asked + Served(p.queue, Live(p)) <= Served(p.files, WORKERS)
    && (Sound(p) ==> p.asked + Served(p.queue, Live(p)) == Served(p.files, WORKERS))
    && p.done + Count(p.workers, Out) == |p.asked|
  }

  lemma NobodyYet(files: seq<Path>)
    ensures PoolInv(Pool(files, files, [Waiting, Waiting, Waiting, Waiting], 0, []))
  {
    var ws := [Waiting, Waiting, Waiting, Waiting];
    forall n: nat | n < 4 ensures ws[..n + 1][..n] == ws[..n] { }
    assert ws[..4] == ws;
    assert Count(ws[..1], Busy) == 1 && Count(ws[..1], Out) == 0;
    assert Count(ws[..2], Busy) == 2 && Count(ws[..2], Out) == 0;
    assert Count(ws[..3], Busy) == 3 && Count(ws[..3], Out) == 0;
    assert Count(ws[..4], Busy) == 4 && Count(ws[..4], Out) == 0;
  }

  /** Taking a turn keeps the invariant, for a worker that is not out with a path. */
  lemma TakeKeepsInv(p: Pool, i: nat)
    requires PoolInv(p) && i < WORKERS && p.workers[i].Waiting?
    ensures PoolInv(Take(p, i)) && Take(p, i).files == p.files
    ensures forall k :: 0 <= k < WORKERS && k != i ==> Take(p, i).workers[k] == p.workers[k]
  {
    hide Count, Served;
    var r := Take(p, i);
    CountAfter(p.workers, i, r.workers[i], Busy);
    CountAfter(p.workers, i, r.workers[i], Out);
    CountAfter(p.workers, i, Returned, Busy);
    assert Sound(r) <==> Sound(p) by { SoundAfter(p, i, r.workers[i]); }
    ServedStep(p.queue, Live(p));
    if p.queue == [] { ServedStep(r.queue, Live(r)); }
    if p.queue != [] && p.queue[0] != "" {
      assert r.asked + Served(r.queue, Live(r)) == p.asked + ([p.queue[0]] + Served(p.queue[1..], Live(p)));
    }
  }

  lemma SoundAfter(p: Pool, i: nat, w: Worker)
    requires i < |p.workers| && !w.Broken? && !p.workers[i].Broken?
    ensures Sound(p.(workers := p.workers[i := w])) <==> Sound(p)
  {
    var ws := p.workers[i := w];
    assert forall k :: 0 <= k < |ws| ==> ws[k] in ws && p.workers[k] in p.workers;
    assert forall k :: 0 <= k < |ws| && k != i ==> ws[k] == p.workers[k];
  }

  lemma ServedStep(queue: seq<Path>, lives: nat)
    ensures queue == [] ==> Served(queue, lives) == []
    ensures queue != [] && queue[0] == "" && lives > 0 ==> Served(queue, lives) == Served(queue[1..], lives - 1)
    ensures queue != [] && queue[0] != "" && lives > 0 ==> Served(queue, lives) == [queue[0]] + Served(queue[1..], lives)
  {
  }

  /** A fetch that came back makes its worker free for the next turn. */
  lemma AnsweredKeepsInv(p: Pool, i: nat)
    requires PoolInv(p) && i < WORKERS && p.workers[i].Asking?
    ensures PoolInv(Answered(p, i)) && Answered(p, i).files == p.files
  {
    hide Count, Served;
    var free := p.(done := p.done + 1, workers := p.workers[i := Waiting]);
    CountAfter(p.workers, i, Waiting, Busy);
    CountAfter(p.workers, i, Waiting, Out);
    SoundAfter(p, i, Waiting);
    assert PoolInv(free);
    TakeKeepsInv(free, i);
    SameTurn(p.(done := p.done + 1), i);
  }

  /** Taking a turn does not look at what the worker was. */
  lemma SameTurn(p: Pool, i: nat)
    requires i < |p.workers|
    ensures Take(p.(workers := p.workers[i := Waiting]), i) == Take(p, i)
  {
  }

  lemma ThrewKeepsInv(p: Pool, i: nat)
    requires PoolInv(p) && i < WORKERS && p.workers[i].Asking?
    ensures PoolInv(Threw(p, i)) && Threw(p, i).files == p.files
  {
    hide Count, Served;
    CountAfter(p.workers, i, Broken, Busy);
    CountAfter(p.workers, i, Broken, Out);
    var r := Threw(p, i);
    assert r.workers[i] in r.workers;
    FewerLivesServeLess(p.queue, Live(p));
  }

  lemma StartKeepsInv(files: seq<Path>)
    ensures PoolInv(Start(files)) && Start(files).files == files
  {
    hide Count, Served;
    var p := Pool(files, files, [Waiting, Waiting, Waiting, Waiting], 0, []);
    NobodyYet(files);
    TakeKeepsInv(p, 0);
    var p1 := Take(p, 0);
    TakeKeepsInv(p1, 1);
    var p2 := Take(p1, 1);
    TakeKeepsInv(p2, 2);
    TakeKeepsInv(Take(p2, 2), 3);
  }

  predicate AllReturned(p: Pool) {
    forall w :: w in p.workers ==> w.Returned?
  }

  /** When every worker has returned, the whole list was asked for once and in order, if it could be. */
  lemma DownloadIsComplete(p: Pool)
    requires PoolInv(p) && AllReturned(p)
    ensures p.asked == Served(p.files, WORKERS) && p.done == |p.asked|
    ensures p.asked == NonEmpty(p.files) <==> InTime(p.files, WORKERS)
  {
    hide Served;
    NoneCounted(p.workers, Busy);
    NoneCounted(p.workers, Out);
    ServedByNobody(p.queue);
    ServesAllIff(p.files, WORKERS);
  }

  lemma {:induction false} NoneCounted(ws: seq<Worker>, kind: Worker -> bool)
    requires forall w :: w in ws ==> !kind(w)
    ensures Count(ws, kind) == 0
  {
    if ws != [] {
      assert ws[|ws| - 1] in ws;
      NoneCounted(ws[..|ws| - 1], kind);
    }
  }

  lemma ServedByNobody(queue: seq<Path>)
    ensures Served(queue, 0) == []
  {
  }

  /** Whatever comes back, the pool is done after as many answers as there are paths and workers. */
  ghost function TurnsLeft(p: Pool): nat {
    |p.queue| + Live(p)
  }

  lemma EveryAnswerSpendsATurn(p: Pool, i: nat)
    requires i < |p.workers| && p.workers[i].Asking?
    ensures TurnsLeft(Answered(p, i)) < TurnsLeft(p) && TurnsLeft(Threw(p, i)) < TurnsLeft(p)
  {
    hide Count;
    CountAfter(p.workers, i, Broken, Busy);
    CountAfter(p.workers, i, Answered(p, i).workers[i], Busy);
  }

  lemma DoneFitsTheList(p: Pool)
    requires PoolInv(p)
    ensures p.done <= |p.files|
  {
    hide Served;
    ServedIsShort(p.files, WORKERS);
  }

  // ----- The meter ------------------------------------------------------------------------------

  datatype Stage = Identity | Calling | Binding | Opening | Ready | Other

  function StageAt(stage: Stage): Option<real> {
    match stage
    case Identity => Some(0.06)
    case Calling => Some(0.12)
    case Binding => Some(0.22)
    case Opening => Some(0.3)
    case Ready => Some(0.38)
    case Other => None
  }

  /** How far `main` has come; a page that failed stays in the phase it failed in. */
  datatype Phase = Connecting | Downloading | Fetched | Settling | Over

  /** @p latest is the elapsed time of the last frame. */
  datatype Page = Page(work: real, shown: real, latest: real, secured: bool, ticking: bool, failed: bool,
                       phase: Phase, pool: Pool)

  const OPENED := Page(0.0, 0.0, 0.0, false, true, false, Connecting, NO_POOL)

  function Share(part: real, whole: real): (r: real)
    requires whole > 0.0
    ensures 0.0 <= part <= whole ==> 0.0 <= r <= 1.0
    ensures r * whole == part
  {
    part / whole
  }

  function Advanced(work: real, fraction: real): real {
    MaxReal(work, MinReal(1.0, fraction))
  }

  /** What a frame would show. */
  function Target(work: real, elapsed: real): real {
    WORK_WEIGHT * work + TIME_WEIGHT * MinReal(elapsed / TIME_SPAN, 1.0)
  }

  function Progressed(p: Page, fraction: real): Page {
    p.(work := Advanced(p.work, fraction))
  }

  function Rendered(p: Page, elapsed: real): Page {
    if !p.ticking then p
    else
      var shown := MaxReal(p.shown, Target(p.work, elapsed));
      p.(shown := shown, secured := p.secured || shown >= FULL, latest := elapsed)
  }

  function Failed(p: Page): Page {
    p.(failed := true, ticking := false)
  }

  /** The share of the list that is done, placed between the manifest and the whole interface. */
  function Downloaded(done: nat, files: nat): real
    requires files > 0
  {
    MANIFEST_AT + (SHELL_AT - MANIFEST_AT) * Share(done as real, files as real)
  }

  datatype Event =
    | Status(stage: Stage)
    | Refused                                   // no machine, no connection
    | Described(files: seq<Path>, cached: bool) // the manifest
    | Undescribed
    | Came(i: nat)                              // a file was fetched and kept, or was not there
    | Lost(i: nat)                              // its fetch or its put threw
    | Gathered(hasIndex: bool)
    | Registered(ok: bool)
    | Frame(elapsed: real)
    | Left
    | Looped                                    // the handover came back here

  predicate Possible(p: Page, e: Event) {
    match e
    case Status(_) => true
    case Refused => p.phase == Connecting && !p.failed
    case Described(_, _) => p.phase == Connecting && !p.failed
    case Undescribed => p.phase == Connecting && !p.failed
    case Came(i) => i < |p.pool.workers| && p.pool.workers[i].Asking?
    case Lost(i) => i < |p.pool.workers| && p.pool.workers[i].Asking?
    case Gathered(_) => p.phase == Downloading && !p.failed && AllReturned(p.pool)
    case Registered(_) => p.phase == Fetched && !p.failed
    case Frame(elapsed) => p.latest <= elapsed
    case Left => p.phase == Settling && p.secured
    case Looped => p.phase == Over
  }

  function Step(p: Page, e: Event): Page {
    if !Possible(p, e) then p
    else match e
      case Status(stage) => if StageAt(stage).Some? then Progressed(p, StageAt(stage).value) else p
      case Refused => Failed(p)
      case Undescribed => Failed(p)
      case Described(files, cached) => Manifested(p, files, cached)
      case Came(i) => FileCame(p, i)
      case Lost(i) => Failed(p.(pool := Threw(p.pool, i)))
      case Gathered(hasIndex) => if hasIndex then p.(phase := Fetched) else Failed(p)
      case Registered(ok) => if ok then Progressed(p.(phase := Settling), 1.0) else Failed(p)
      case Frame(elapsed) => Rendered(p, elapsed)
      case Left => p.(phase := Over, ticking := false)
      case Looped => Failed(p)
  }

  function Manifested(p: Page, files: seq<Path>, cached: bool): Page {
    var q := Progressed(p, MANIFEST_AT);
    if files == [] then Failed(q)
    else if cached then Progressed(q.(phase := Fetched), SHELL_AT)
    else q.(phase := Downloading, pool := Start(files))
  }

  function FileCame(p: Page, i: nat): Page
    requires i < |p.pool.workers|
  {
    var q := p.(pool := Answered(p.pool, i));
    if q.pool.files == [] then q else Progressed(q, Downloaded(q.pool.done, |q.pool.files|))
  }

  // ----- What every page keeps ------------------------------------------------------------------

  predicate Settled(p: Page) {
    p.phase == Settling || p.phase == Over
  }

  /** `settle` begins with the connection made and the list fetched, and is the only way past 0.92. */
  ghost predicate WorkInv(p: Page) {
    && 0.0 <= p.work <= 1.0
    && (Settled(p) ==> p.work == 1.0)
    && (!Settled(p) ==> p.work <= SHELL_AT)
  }

  ghost predicate BarInv(p: Page) {
    && 0.0 <= p.shown <= Target(p.work, p.latest)
    && 0.0 <= p.latest
    && (p.secured <==> p.shown >= FULL)
  }

  ghost predicate PhaseInv(p: Page) {
    && PoolInv(p.pool)
    && (p.phase == Connecting ==> p.pool == NO_POOL)
    && (p.phase == Downloading ==> p.pool.files != [])
    && (p.pool.files != [] ==> p.work >= Downloaded(p.pool.done, |p.pool.files|))
    && (p.phase == Fetched || Settled(p) ==> AllReturned(p.pool))
    && (p.phase == Over ==> p.secured)
  }

  ghost predicate Inv(p: Page) {
    WorkInv(p) && BarInv(p) && PhaseInv(p)
  }

  lemma OpenedIsSound()
    ensures Inv(OPENED)
  {
    hide Served;
    NoneCounted(NO_POOL.workers, Busy);
    NoneCounted(NO_POOL.workers, Out);
    ServedByNobody([]);
    ServedStep([], WORKERS);
  }

  lemma DownloadedIsAtMostShell(done: nat, files: nat)
    requires done <= files && files > 0
    ensures MANIFEST_AT <= Downloaded(done, files) <= SHELL_AT
    ensures done == files ==> Downloaded(done, files) == SHELL_AT
  {
  }

  /** Work that moves up keeps the bar where it can reach. */
  lemma TargetGrows(work: real, work': real, elapsed: real, elapsed': real)
    requires work <= work' && elapsed <= elapsed'
    ensures Target(work, elapsed) <= Target(work', elapsed')
  {
  }

  lemma StepKeepsInv(p: Page, e: Event)
    requires Inv(p)
    ensures Inv(Step(p, e))
  {
    hide PoolInv, Target, Downloaded, Answered, Threw, Start, AllReturned;
    if Possible(p, e) {
      var q := Step(p, e);
      match e
      case Described(files, cached) => ManifestKeepsInv(p, files, cached);
      case Came(i) => CameKeepsInv(p, i);
      case Lost(i) => LostKeepsInv(p, i);
      case Frame(elapsed) => TargetGrows(p.work, p.work, p.latest, elapsed);
      case _ => TargetGrows(p.work, MaxReal(p.work, q.work), p.latest, p.latest);
    }
  }

  lemma ManifestKeepsInv(p: Page, files: seq<Path>, cached: bool)
    requires Inv(p) && Possible(p, Described(files, cached))
    ensures Inv(Manifested(p, files, cached))
  {
    hide PoolInv, Target, Downloaded, Start;
    StartKeepsInv(files);
    StartsAtZero(files);
    TargetGrows(p.work, Manifested(p, files, cached).work, p.latest, p.latest);
    assert AllReturned(NO_POOL);
  }

  lemma StartsAtZero(files: seq<Path>)
    ensures Start(files).done == 0 && (files != [] ==> Downloaded(0, |files|) == MANIFEST_AT)
  {
  }

  lemma CameKeepsInv(p: Page, i: nat)
    requires Inv(p) && Possible(p, Came(i))
    ensures Inv(FileCame(p, i))
  {
    hide Target, Downloaded, PoolInv, Answered;
    var q := FileCame(p, i);
    assert p.pool.workers[i] in p.pool.workers;
    assert |p.pool.workers| == WORKERS by { FourWorkers(p.pool); }
    AnsweredKeepsInv(p.pool, i);
    DoneFitsTheList(q.pool);
    assert q.pool.done == p.pool.done + 1 by { OneMoreDone(p.pool, i); }
    if q.pool.files != [] {
      DownloadedIsAtMostShell(q.pool.done, |q.pool.files|);
    }
    TargetGrows(p.work, q.work, p.latest, p.latest);
  }

  lemma LostKeepsInv(p: Page, i: nat)
    requires Inv(p) && Possible(p, Lost(i))
    ensures Inv(Step(p, Lost(i)))
  {
    hide Target, Downloaded, PoolInv;
    assert p.pool.workers[i] in p.pool.workers;
    assert |p.pool.workers| == WORKERS by { FourWorkers(p.pool); }
    ThrewKeepsInv(p.pool, i);
  }

  lemma FourWorkers(p: Pool)
    requires PoolInv(p)
    ensures |p.workers| == WORKERS
  {
  }

  lemma OneMoreDone(p: Pool, i: nat)
    requires i < |p.workers|
    ensures Answered(p, i).done == p.done + 1
  {
  }

  function Run(p: Page, es: seq<Event>): Page
    decreases |es|
  {
    if es == [] then p else Run(Step(p, es[0]), es[1..])
  }

  function Reported(stages: seq<Stage>): seq<Event> {
    seq(|stages|, k requires 0 <= k < |stages| => Status(stages[k]))
  }

  /** How far the stages alone bring the work: as far as the latest of them, in whatever order they are reported. */
  function Reached(stages: seq<Stage>): real {
    if Ready in stages then 0.38
    else if Opening in stages then 0.3
    else if Binding in stages then 0.22
    else if Calling in stages then 0.12
    else if Identity in stages then 0.06
    else 0.0
  }

  lemma {:induction false} LatestStageCounts(stages: seq<Stage>)
    ensures Run(OPENED, Reported(stages)) == OPENED.(work := Reached(stages))
    decreases |stages|
  {
    if stages == [] {
      assert Reported(stages) == [];
    } else {
      var n := |stages| - 1;
      LatestStageCounts(stages[..n]);
      assert Reported(stages) == Reported(stages[..n]) + [Status(stages[n])];
      RunOnce(OPENED, Reported(stages[..n]), Status(stages[n]));
      assert stages == stages[..n] + [stages[n]];
    }
  }

  lemma {:induction false} RunOnce(p: Page, es: seq<Event>, e: Event)
    ensures Run(p, es + [e]) == Step(Run(p, es), e)
    decreases |es|
  {
    hide Step;
    if es == [] {
      assert [e][1..] == [] && es + [e] == [e];
      assert Run(Step(p, e), []) == Step(p, e);
    } else {
      assert (es + [e])[1..] == es[1..] + [e];
      RunOnce(Step(p, es[0]), es[1..], e);
    }
  }

  lemma {:induction false} RunKeepsInv(p: Page, es: seq<Event>)
    requires Inv(p)
    ensures Inv(Run(p, es))
    decreases |es|
  {
    if es != [] {
      StepKeepsInv(p, es[0]);
      RunKeepsInv(Step(p, es[0]), es[1..]);
    }
  }

  // ----- What the meter promises ----------------------------------------------------------------

  /** Neither the work nor the bar ever goes back, and the seal never opens again. */
  lemma {:induction false} NeverBackwards(p: Page, es: seq<Event>)
    ensures var q := Run(p, es);
            p.work <= q.work && p.shown <= q.shown && (p.secured ==> q.secured)
    decreases |es|
  {
    if es != [] {
      StepForward(p, es[0]);
      NeverBackwards(Step(p, es[0]), es[1..]);
    }
  }

  lemma StepForward(p: Page, e: Event)
    ensures var q := Step(p, e);
            p.work <= q.work && p.shown <= q.shown && (p.secured ==> q.secured)
  {
  }

  /**
   From the first frame on, however long it takes: short of `settle` the bar stays below 0.999, and the
   seal is closed only with the whole list asked for, or the cache holding it, and 1196 ms gone.
   */
  lemma SecuredOnlyWhenReal(es: seq<Event>)
    ensures var p := Run(OPENED, es);
            && 0.0 <= p.shown <= 1.0
            && (!Settled(p) ==> p.work <= SHELL_AT && p.shown <= 0.944 && !p.secured)
            && (p.secured ==> p.latest >= 1196.0 && AllReturned(p.pool)
                              && p.pool.asked == Served(p.pool.files, WORKERS) && p.pool.done == |p.pool.asked|)
  {
    OpenedIsSound();
    RunKeepsInv(OPENED, es);
    var p := Run(OPENED, es);
    hide Run, PoolInv, AllReturned, Downloaded;
    if p.secured {
      DownloadIsComplete(p.pool);
    }
  }

  /** Once settling, a frame closes the seal exactly when 1196 ms have gone. */
  lemma SealsIff(p: Page, elapsed: real)
    requires Inv(p) && p.phase == Settling && !p.secured && p.ticking && p.latest <= elapsed
    ensures Step(p, Frame(elapsed)).secured <==> elapsed >= 1196.0
  {
  }

  /** A settling page has not failed and still draws frames, so the seal does close. */
  lemma {:induction false} SettlingStillTicks(p: Page, es: seq<Event>)
    requires Inv(p) && (p.failed || p.phase == Over || p.ticking)
    ensures var q := Run(p, es);
            q.failed || q.phase == Over || q.ticking
    decreases |es|
  {
    hide Inv;
    if es != [] {
      StepKeepsInv(p, es[0]);
      SettlingStillTicks(Step(p, es[0]), es[1..]);
    }
  }

  /**
   Where the manifest and each file of its list bring the work: to 0.45, and from there by equal shares to 0.92,
   never back.
   */
  lemma FilesMoveTheWork(p: Page, files: seq<Path>, i: nat)
    requires Inv(p)
    ensures p.phase == Connecting && !p.failed && files != [] ==>
              Step(p, Described(files, false)).work == (if p.work > 0.45 then p.work else 0.45)
    ensures Possible(p, Came(i)) && p.pool.files != [] && p.pool.done < |p.pool.files| ==>
              var share := 0.45 + 0.47 * ((p.pool.done + 1) as real / |p.pool.files| as real);
              Step(p, Came(i)).work == (if p.work > share then p.work else share)
  {
    if Possible(p, Came(i)) && p.pool.files != [] && p.pool.done < |p.pool.files| {
      DownloadedIsAtMostShell(p.pool.done + 1, |p.pool.files|);
    }
    hide Inv, Target;
  }

  /** A list without empty paths fills the meter to exactly the interface's mark. */
  lemma FullDownloadReachesShell(p: Page)
    requires Inv(p) && p.phase == Fetched && p.pool.files != [] && forall f :: f in p.pool.files ==> f != ""
    ensures p.work == SHELL_AT
  {
    hide Target, Count, Served;
    DownloadIsComplete(p.pool);
    NoEmptyIsAll(p.pool.files);
    ServesAllIff(p.pool.files, WORKERS);
    DownloadedIsAtMostShell(p.pool.done, |p.pool.files|);
  }

  lemma {:induction false} NoEmptyIsAll(files: seq<Path>)
    requires forall f :: f in files ==> f != ""
    ensures NonEmpty(files) == files && Empties(files) == 0 && InTime(files, WORKERS)
  {
    if files != [] {
      assert files[0] in files && forall f :: f in files[1..] ==> f in files;
      NoEmptyIsAll(files[1..]);
      Shifted(files, WORKERS);
    }
  }

  /** Four empty paths first, and nothing behind them is ever asked for. */
  lemma FourEmptyPathsStopThePool(rest: seq<Path>)
    ensures var p := Start(["", "", "", ""] + rest);
            AllReturned(p) && p.asked == [] && p.queue == rest
  {
  }

  // ----- The page's variables -------------------------------------------------------------------

  class Boot {
    var work: real
    var shown: real
    var secured: bool
    var ticking: bool
    var failed: bool
    var phase: Phase
    var files: seq<Path>
    var queue: seq<Path>
    var workers: seq<Worker>
    var done: nat
    ghost var asked: seq<Path>
    ghost var latest: real

    ghost function Now(): Page
      reads this
    {
      Page(work, shown, latest, secured, ticking, failed, phase, Pool(files, queue, workers, done, asked))
    }

    constructor ()
      ensures Now() == OPENED
    {
      work, shown, secured, ticking, failed, phase := 0.0, 0.0, false, true, false, Connecting;
      files, queue, workers, done, asked, latest := [], [], NO_POOL.workers, 0, [], 0.0;
    }

    method Progress(fraction: real)
      modifies this`work
      ensures Now() == Progressed(old(Now()), fraction)
    {
      work := MaxReal(work, MinReal(1.0, fraction));
    }

    method Render(elapsed: real)
      modifies this`shown, this`secured, this`latest
      ensures Now() == Rendered(old(Now()), elapsed)
    {
      if !ticking { return; }
      var target := WORK_WEIGHT * work + TIME_WEIGHT * MinReal(elapsed / TIME_SPAN, 1.0);
      shown := MaxReal(shown, target);
      latest := elapsed;
      if shown >= FULL && !secured { secured := true; }
    }

    method Fail()
      modifies this`ticking, this`failed
      ensures Now() == Failed(old(Now()))
    {
      ticking, failed := false, true;
    }

    method OnStatus(stage: Stage)
      modifies this`work
      ensures Now() == Step(old(Now()), Status(stage))
    {
      if StageAt(stage).Some? { Progress(StageAt(stage).value); }
    }

    /** One pass of a worker's loop, up to its `await`. */
    method WorkerTurn(i: nat)
      requires i < |workers|
      modifies this`queue, this`workers, this`asked
      ensures Now() == old(Now()).(pool := Take(old(Now()).pool, i)) && |workers| == old(|workers|)
    {
      if queue == [] {
        workers := workers[i := Returned];
        return;
      }
      var path := queue[0];
      queue := queue[1..];
      if path == "" {
        workers := workers[i := Returned];
        return;
      }
      workers, asked := workers[i := Asking(path)], asked + [path];
    }

    method OnManifest(listed: seq<Path>, cached: bool)
      requires phase == Connecting && !failed
      modifies this
      ensures Now() == Step(old(Now()), Described(listed, cached))
    {
      hide Start;
      Progress(MANIFEST_AT);
      if listed == [] {
        Fail();
        return;
      }
      if cached {
        Progress(SHELL_AT);
        phase := Fetched;
        return;
      }
      phase := Downloading;
      StartWorkers(listed);
    }

    method StartWorkers(listed: seq<Path>)
      modifies this`files, this`queue, this`done, this`asked, this`workers
      ensures Now() == old(Now()).(pool := Start(listed))
    {
      hide Take;
      files, queue, done, asked := listed, listed, 0, [];
      workers := [Waiting, Waiting, Waiting, Waiting];
      WorkerTurn(0);
      WorkerTurn(1);
      WorkerTurn(2);
      WorkerTurn(3);
    }

    method OnFile(i: nat)
      requires i < |workers| && workers[i].Asking? && files != []
      modifies this
      ensures Now() == Step(old(Now()), Came(i))
    {
      done := done + 1;
      Progress(MANIFEST_AT + (SHELL_AT - MANIFEST_AT) * (done as real / |files| as real));
      WorkerTurn(i);
    }

    method OnLost(i: nat)
      requires i < |workers| && workers[i].Asking?
      modifies this
      ensures Now() == Step(old(Now()), Lost(i))
    {
      workers := workers[i := Broken];
      Fail();
    }

    method Settle()
      requires phase == Fetched && !failed
      modifies this`work, this`phase
      ensures Now() == Step(old(Now()), Registered(true))
    {
      phase := Settling;
      Progress(1.0);
    }
  }
}
