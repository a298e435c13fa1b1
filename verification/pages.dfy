/** The fan-out half of `getPages`: every page is fetched from the render server and written
    to its file, and `Promise.map` combines the jobs into one promise. */
module Pages {
  import opened Results
  import opened Routes

  /** How one fetch-then-write job ends: the body it wrote, or the step that failed. */
  datatype JobOutcome = Written(body: string) | FetchFailed | WriteFailed

  /** A file the generator leaves on disk. */
  datatype WrittenFile = WrittenFile(file: string, body: string)

  /** Why `getPages` rejects: a malformed group, or a job that failed. Which failed job's
      error surfaces first depends on timing, so the job is not named. */
  datatype PagesError = RouteFailure(error: RouteError) | JobFailure

  /** The all-or-nothing aggregate of `Promise.map`: it resolves, with one entry per job in
      page order, when every job wrote, and rejects as soon as one fails. The entry kept here is
      the body the job wrote; the array the source builds holds only `writeFile`'s empty
      results, which nothing reads. */
  function SettleAll(outcomes: seq<JobOutcome>): (r: Result<seq<string>, PagesError>)
    ensures r.Ok? <==> forall i :: 0 <= i < |outcomes| ==> outcomes[i].Written?
    ensures r.Err? ==> r.error == JobFailure
    ensures r.Ok? ==> |r.value| == |outcomes| && forall i :: 0 <= i < |outcomes| ==> r.value[i] == outcomes[i].body
  {
    if outcomes == [] then Ok([])
    else
      var init := SettleAll(outcomes[..|outcomes| - 1]);
      var last := outcomes[|outcomes| - 1];
      if init.Err? then init
      else if !last.Written? then Err(JobFailure)
      else Ok(init.value + [last.body])
  }

  /** The outcome of each page's job; `job(i)` is how the job of page `i` ends. */
  function Outcomes(pages: seq<Page>, job: nat -> JobOutcome): (r: seq<JobOutcome>)
    ensures |r| == |pages| && forall i :: 0 <= i < |pages| ==> r[i] == job(i)
  {
    seq(|pages|, i requires 0 <= i < |pages| => job(i))
  }

  /** `getPages()` over the routes module once `NotFound` is gone: it resolves exactly when
      the table is well formed and every job wrote. The value records, for page `i`, the file
      named after its path and the body its job wrote there. */
  function GetPages(t: RouteTable, job: nat -> JobOutcome): (r: Result<seq<WrittenFile>, PagesError>)
    ensures Generate(t).Err? ==> r == Err(RouteFailure(Generate(t).error))
    ensures Generate(t).Ok? ==>
              (r.Ok? <==> forall i :: 0 <= i < |Generate(t).value| ==> job(i).Written?)
    ensures r.Err? && Generate(t).Ok? ==> r.error == JobFailure
    ensures r.Ok? ==> && Generate(t).Ok?
                      && |r.value| == |Generate(t).value|
                      && forall i :: 0 <= i < |r.value| ==>
                           r.value[i] == WrittenFile(DistFile(Generate(t).value[i].path), job(i).body)
  {
    match Generate(t)
    case Err(e) => Err(RouteFailure(e))
    case Ok(pages) =>
      var settled := SettleAll(Outcomes(pages, job));
      if settled.Err? then Err(settled.error)
      else Ok(seq(|pages|, i requires 0 <= i < |pages| => WrittenFile(DistFile(pages[i].path), settled.value[i])))
  }

  /** The log of writes once every job has settled, in page order. `Promise.map` cancels
      nothing, so each job that succeeds writes its file whatever its siblings do; a malformed
      group throws before any write is scheduled. Two pages with the same file name give two
      entries for one file. */
  function WriteLog(t: RouteTable, job: nat -> JobOutcome): (r: seq<WrittenFile>)
    ensures Generate(t).Err? ==> r == []
    ensures Generate(t).Ok? ==> |r| <= |Generate(t).value|
    ensures Generate(t).Ok? ==> forall i :: 0 <= i < |Generate(t).value| && job(i).Written? ==>
              WrittenFile(DistFile(Generate(t).value[i].path), job(i).body) in r
    ensures forall f :: f in r ==> && Generate(t).Ok?
                                   && exists i :: 0 <= i < |Generate(t).value| && job(i).Written?
                                         && f == WrittenFile(DistFile(Generate(t).value[i].path), job(i).body)
  {
    match Generate(t)
    case Err(_) => []
    case Ok(pages) =>
      var files := Targets(pages);
      WrittenFilesContents(files, job, |pages|);
      WrittenFiles(files, job, |pages|)
  }

  /** The file each page is written to, in page order. */
  function Targets(pages: seq<Page>): (r: seq<string>)
    ensures |r| == |pages| && forall i :: 0 <= i < |pages| ==> r[i] == DistFile(pages[i].path)
  {
    seq(|pages|, i requires 0 <= i < |pages| => DistFile(pages[i].path))
  }

  /** The writes the jobs of the first `n` pages make, in page order; page `i` goes to
      `files[i]`. */
  function WrittenFiles(files: seq<string>, job: nat -> JobOutcome, n: nat): (r: seq<WrittenFile>)
    requires n <= |files|
    ensures |r| <= n
  {
    if n == 0 then []
    else
      var before := WrittenFiles(files, job, n - 1);
      match job(n - 1)
      case Written(body) => before + [WrittenFile(files[n - 1], body)]
      case _ => before
  }

  /** Every job among the first `n` that wrote is in the log, and the log holds nothing else. */
  lemma {:induction false} WrittenFilesContents(files: seq<string>, job: nat -> JobOutcome, n: nat)
    requires n <= |files|
    ensures forall i :: 0 <= i < n && job(i).Written? ==>
              WrittenFile(files[i], job(i).body) in WrittenFiles(files, job, n)
    ensures forall f :: f in WrittenFiles(files, job, n) ==>
              exists i :: 0 <= i < n && job(i).Written? && f == WrittenFile(files[i], job(i).body)
  {
    if n > 0 {
      WrittenFilesContents(files, job, n - 1);
    }
  }

  /** When the first `n` jobs all wrote, their log is one write per page, in page order. */
  lemma {:induction false} AllWrittenLog(files: seq<string>, job: nat -> JobOutcome, n: nat)
    requires n <= |files|
    requires forall i :: 0 <= i < n ==> job(i).Written?
    ensures |WrittenFiles(files, job, n)| == n
    ensures forall i :: 0 <= i < n ==> WrittenFiles(files, job, n)[i] == WrittenFile(files[i], job(i).body)
  {
    if n > 0 {
      AllWrittenLog(files, job, n - 1);
    }
  }

  /** When `getPages` resolves, the write log holds exactly the writes it resolved after,
      in the same order. When it rejects because a job failed, every other job that succeeded
      has still written its file. */
  lemma WriteLogAgreesWithGetPages(t: RouteTable, job: nat -> JobOutcome)
    ensures GetPages(t, job).Ok? ==> WriteLog(t, job) == GetPages(t, job).value
    ensures Generate(t).Ok? ==> forall i :: 0 <= i < |Generate(t).value| && job(i).Written? ==>
              WrittenFile(DistFile(Generate(t).value[i].path), job(i).body) in WriteLog(t, job)
  {
    if GetPages(t, job).Ok? {
      var pages := Generate(t).value;
      AllWrittenLog(Targets(pages), job, |pages|);
    }
  }

  lemma OneEntryGroup(e: RouteEntry, path: string)
    requires e.route.Segment? && path == "/" + e.route.segment
    ensures GroupPages(Plain([e])) == [Page(path, e)]
  {
    assert EntryPath(Plain([e]), e) == "" + "/" + e.route.segment;
    assert "" + "/" + e.route.segment == path;
  }

  lemma SingleGroupTable(key: string, g: RouteGroup)
    requires WellFormed(g)
    ensures Flatten([(key, g)]) == Ok(GroupPages(g))
  {
    var t := [(key, g)];
    assert t[..0] == [];
    assert [] + GroupPages(g) == GroupPages(g);
  }

  /** The render server of the two-route site: the root page, then the about page. */
  function TwoRouteServer(i: nat): JobOutcome {
    if i == 0 then Written("<html>Home</html>") else Written("<html>About</html>")
  }

  /** When every job writes, `getPages` resolves with one file per page, in page order. */
  lemma GetPagesWhenAllWrite(t: RouteTable, job: nat -> JobOutcome, files: seq<WrittenFile>)
    requires Generate(t).Ok? && |files| == |Generate(t).value|
    requires forall i :: 0 <= i < |files| ==>
               job(i).Written? && files[i] == WrittenFile(DistFile(Generate(t).value[i].path), job(i).body)
    ensures GetPages(t, job) == Ok(files)
  {
    var r := GetPages(t, job);
    assert r.Ok?;
    assert r.value == files;
  }

  lemma TwoRouteTable(home: RouteEntry, about: RouteEntry)
    requires home == RouteEntry(Segment("")) && about == RouteEntry(Segment("about"))
    ensures Generate([ ("Main", Plain([home])), ("About", Plain([about])) ])
            == Ok([Page("/", home), Page("/about", about)])
  {
    var t := [ ("Main", Plain([home])), ("About", Plain([about])) ];
    assert RemoveNotFound(t) == t;
    OneEntryGroup(home, "/");
    OneEntryGroup(about, "/about");
    SingleGroupTable("Main", Plain([home]));
    assert t[..1] == [("Main", Plain([home]))];
    assert [Page("/", home)] + GroupPages(Plain([about])) == [Page("/", home), Page("/about", about)];
  }

  /** The two-route site: the root route goes to `main.html`, the other to its own name. */
  lemma TwoRouteSite()
    ensures GetPages([ ("Main", Plain([RouteEntry(Segment(""))])),
                       ("About", Plain([RouteEntry(Segment("about"))])) ], TwoRouteServer)
            == Ok([ WrittenFile("./dist/main.html", "<html>Home</html>"),
                    WrittenFile("./dist/about.html", "<html>About</html>") ])
  {
    var home, about := RouteEntry(Segment("")), RouteEntry(Segment("about"));
    TwoRouteTable(home, about);
    assert DistFile("/") == "./dist/main.html";
    assert DistDir + "/about" + ".html" == "./dist/about.html";
    GetPagesWhenAllWrite([ ("Main", Plain([home])), ("About", Plain([about])) ], TwoRouteServer,
      [ WrittenFile("./dist/main.html", "<html>Home</html>"), WrittenFile("./dist/about.html", "<html>About</html>") ]);
  }

  function HomeOnly(i: nat): JobOutcome {
    Written("<html>Home</html>")
  }

  /** A route written as `"/"` rather than `""` is requested as `//` and written to `./dist//.html`. */
  lemma SlashRouteIsNotRoot()
    ensures GetPages([ ("Main", Plain([RouteEntry(Segment("/"))])) ], HomeOnly)
            == Ok([ WrittenFile("./dist//.html", "<html>Home</html>") ])
  {
    var root := RouteEntry(Segment("/"));
    var t := [ ("Main", Plain([root])) ];
    assert RemoveNotFound(t) == t;
    OneEntryGroup(root, "//");
    SingleGroupTable("Main", Plain([root]));
    assert Generate(t) == Ok([Page("//", root)]);
    assert DistDir + "//" + ".html" == "./dist//.html";
    GetPagesWhenAllWrite(t, HomeOnly, [ WrittenFile("./dist//.html", "<html>Home</html>") ]);
  }
}
