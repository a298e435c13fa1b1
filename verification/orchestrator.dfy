/** The top-level `async` run: build, spawn the render server, wait for it, generate the
    pages, then send the server `SIGHUP`. Each `await` that rejects ends the run on the spot. */
module Orchestrator {
  import opened JsValue
  import opened Results
  import opened Routes
  import opened Build
  import opened Readiness
  import opened Pages

  /** Why a run stopped early. */
  datatype Cause = BuildRejected(code: Value) | PagesRejected(error: PagesError)

  /** Where a run is. `Waiting` is left only when the probe resolves. */
  datatype Phase =
    | Building
    | Starting
    | Waiting
    | Generating
    | ShuttingDown
    | Done
    | Failed(cause: Cause)

  /** What a run does to the outside world: spawn the render server, call `getPages()` (which
      schedules every page's fetch), and signal the server. */
  datatype Effect = SpawnServer | CallGetPages | SendSighup

  /** Everything the run depends on: the build's close code, how the probe's attempts end,
      the routes module as loaded, and how each page's fetch-then-write job ends. */
  datatype Inputs = Inputs(closeCode: Value, probe: seq<Attempt>, routes: RouteTable, job: nat -> JobOutcome)

  /** How each awaited step settles for given inputs. A step the run never reaches is still
      given a value here; the machine does not look at it. */
  datatype Settled = Settled(build: Settlement, probe: ProbeState, pages: Result<seq<WrittenFile>, PagesError>)

  function Settle(inp: Inputs): Settled {
    Settled(BuildSettles(inp.closeCode), Probe(inp.probe), GetPages(inp.routes, inp.job))
  }

  /** One transition. It never moves backwards; a phase that cannot advance maps to itself (the
      terminal phases, and `Waiting` while the probe has not resolved); and a run fails only
      where an `await` can throw, at the build or at `getPages`. */
  function Step(p: Phase, s: Settled): (r: Phase)
    ensures r == p <==> p.Done? || p.Failed? || (p == Waiting && s.probe.Pending?)
    ensures r != p ==> Rank(r) > Rank(p)
    ensures r.Failed? && !p.Failed? ==> (p == Building && s.build.Rejected?) || (p == Generating && s.pages.Err?)
    ensures r == Done ==> p == ShuttingDown || p == Done
  {
    match p
    case Building =>
      (match s.build
       case Resolved => Starting
       case Rejected(code) => Failed(BuildRejected(code)))
    case Starting => Waiting
    case Waiting => if s.probe.Ready? then Generating else Waiting
    case Generating =>
      (match s.pages
       case Ok(_) => ShuttingDown
       case Err(e) => Failed(PagesRejected(e)))
    case ShuttingDown => Done
    case Done => Done
    case Failed(c) => Failed(c)
  }

  /** What a transition does: `server()` spawns the render server on the way into `Waiting`,
      `getPages()` is called on the way into `Generating`, and `s.kill` ends the run. */
  function Emits(p: Phase, q: Phase): seq<Effect> {
    if p == Starting && q == Waiting then [SpawnServer]
    else if p == Waiting && q == Generating then [CallGetPages]
    else if p == ShuttingDown && q == Done then [SendSighup]
    else []
  }

  /** How far along the linear order of phases `p` stands. */
  function Rank(p: Phase): nat {
    match p
    case Building => 0
    case Starting => 1
    case Waiting => 2
    case Generating => 3
    case ShuttingDown => 4
    case Done => 5
    case Failed(_) => 5
  }

  /** The phases a run passes through and the effects it has, in order. */
  datatype Trace = Trace(phases: seq<Phase>, effects: seq<Effect>)

  /** Runs the machine from `p` until a phase maps to itself. The run starts at `p`, visits at
      most one phase per rank from there on, and has at most one effect per transition. */
  function RunFrom(p: Phase, s: Settled): (r: Trace)
    ensures 1 <= |r.phases| <= 6 - Rank(p) && r.phases[0] == p
    ensures |r.effects| < |r.phases|
    decreases 5 - Rank(p)
  {
    var q := Step(p, s);
    if q == p then Trace([p], [])
    else
      var rest := RunFrom(q, s);
      Trace([p] + rest.phases, Emits(p, q) + rest.effects)
  }

  /** A run follows the machine: it starts where it was started, each phase is the step of the
      one before and lies strictly further along (so no phase is visited twice), and it stops
      only at a phase that cannot advance. */
  lemma {:induction false} RunFollowsStep(p: Phase, s: Settled)
    ensures var r := RunFrom(p, s);
            && r.phases != [] && r.phases[0] == p
            && Step(r.phases[|r.phases| - 1], s) == r.phases[|r.phases| - 1]
            && forall i :: 0 <= i < |r.phases| - 1 ==>
                 Step(r.phases[i], s) == r.phases[i + 1] && Rank(r.phases[i]) < Rank(r.phases[i + 1])
    decreases 5 - Rank(p)
  {
    var q := Step(p, s);
    if q != p {
      RunFollowsStep(q, s);
    }
  }

  /** The whole run. */
  function Run(inp: Inputs): Trace {
    RunFrom(Building, Settle(inp))
  }

  /** A build that closes with a truthy code ends the run before the server exists. */
  lemma RunWhenBuildRejects(s: Settled)
    requires s.build.Rejected?
    ensures RunFrom(Building, s) == Trace([Building, Failed(BuildRejected(s.build.reason))], [])
  {
    var c := Failed(BuildRejected(s.build.reason));
    assert RunFrom(c, s) == Trace([c], []);
  }

  /** A server that never accepts a connection leaves the run waiting for ever, server spawned. */
  lemma RunWhenProbePending(s: Settled)
    requires s.build.Resolved? && s.probe.Pending?
    ensures RunFrom(Building, s) == Trace([Building, Starting, Waiting], [SpawnServer])
  {
    assert RunFrom(Waiting, s) == Trace([Waiting], []);
    assert RunFrom(Starting, s) == Trace([Starting, Waiting], [SpawnServer]);
  }

  /** A rejected `getPages` ends the run with the server spawned and never signalled. */
  lemma RunWhenPagesReject(s: Settled)
    requires s.build.Resolved? && s.probe.Ready? && s.pages.Err?
    ensures RunFrom(Building, s)
            == Trace([Building, Starting, Waiting, Generating, Failed(PagesRejected(s.pages.error))],
                     [SpawnServer, CallGetPages])
  {
    var c := Failed(PagesRejected(s.pages.error));
    assert RunFrom(c, s) == Trace([c], []);
    assert RunFrom(Generating, s) == Trace([Generating, c], []);
    assert RunFrom(Waiting, s) == Trace([Waiting, Generating, c], [CallGetPages]);
    assert RunFrom(Starting, s) == Trace([Starting, Waiting, Generating, c], [SpawnServer, CallGetPages]);
  }

  /** Only a run in which every awaited step resolves reaches `SIGHUP` and `Done`. */
  lemma RunWhenAllResolve(s: Settled)
    requires s.build.Resolved? && s.probe.Ready? && s.pages.Ok?
    ensures RunFrom(Building, s)
            == Trace([Building, Starting, Waiting, Generating, ShuttingDown, Done],
                     [SpawnServer, CallGetPages, SendSighup])
  {
    assert RunFrom(Done, s) == Trace([Done], []);
    assert RunFrom(ShuttingDown, s) == Trace([ShuttingDown, Done], [SendSighup]);
    assert RunFrom(Generating, s) == Trace([Generating, ShuttingDown, Done], [SendSighup]);
    assert RunFrom(Waiting, s) == Trace([Waiting, Generating, ShuttingDown, Done], [CallGetPages, SendSighup]);
    assert RunFrom(Starting, s)
           == Trace([Starting, Waiting, Generating, ShuttingDown, Done], [SpawnServer, CallGetPages, SendSighup]);
  }

  /** The run's order of events, by how the awaited steps settle:
      the server is spawned exactly when the build resolves; `getPages` is called exactly when,
      in addition, the probe resolves; `SIGHUP` is sent exactly when, in addition, `getPages`
      resolves; the effects always come in that order; and the run ends in `Done` exactly
      when `SIGHUP` was sent. */
  lemma RunSequencing(s: Settled)
    ensures var r := RunFrom(Building, s);
            && (SpawnServer in r.effects <==> s.build.Resolved?)
            && (CallGetPages in r.effects <==> s.build.Resolved? && s.probe.Ready?)
            && (SendSighup in r.effects <==> s.build.Resolved? && s.probe.Ready? && s.pages.Ok?)
            && r.effects <= [SpawnServer, CallGetPages, SendSighup]
            && (r.phases[|r.phases| - 1] == Done <==> SendSighup in r.effects)
  {
    if s.build.Rejected? {
      RunWhenBuildRejects(s);
    } else if s.probe.Pending? {
      RunWhenProbePending(s);
    } else if s.pages.Err? {
      RunWhenPagesReject(s);
    } else {
      RunWhenAllResolve(s);
    }
  }

  /** A single job that fails strands the render server: it was spawned, `getPages` rejects,
      the `await` throws and `SIGHUP` is never sent, while the jobs that succeeded have still
      written their files. */
  lemma FailedJobStrandsServer(inp: Inputs, k: nat)
    requires BuildSettles(inp.closeCode).Resolved? && Probe(inp.probe).Ready?
    requires Generate(inp.routes).Ok? && k < |Generate(inp.routes).value|
    requires !inp.job(k).Written?
    ensures SpawnServer in Run(inp).effects && SendSighup !in Run(inp).effects
    ensures Run(inp).phases[|Run(inp).phases| - 1] == Failed(PagesRejected(JobFailure))
    ensures forall i :: 0 <= i < |Generate(inp.routes).value| && inp.job(i).Written? ==>
              WrittenFile(DistFile(Generate(inp.routes).value[i].path), inp.job(i).body) in WriteLog(inp.routes, inp.job)
  {
    var s := Settle(inp);
    assert s.pages == Err(JobFailure);
    RunWhenPagesReject(s);
    WriteLogAgreesWithGetPages(inp.routes, inp.job);
  }
}
