/** The outcome of one job under overlapping requests: finishing, completing and uploading each read the row and write it
    in a later statement (api/job/router.py). */
module JobOutcome {
  import opened Base

  // The uploaded flag of each declared output file; the column may be null.
  type Files = Option<map<string, bool>>

  // What a column was read as and is set to. Setting it to what was read writes nothing.
  datatype Change<T(==)> = Change(was: T, now: T) {
    function Written(current: T): T {
      if was == now then current else now
    }
  }

  // A finishing or completing handler between its reads and its commit.
  datatype Handler = Handler(status: Change<string>, files: Change<Files>, ends: bool)

  datatype State = State(
    status: string, files: Files, finished: bool, handlers: map<nat, Handler>, uploads: map<nat, string>)

  const CREATED := State("pending", None, false, map[], map[])

  datatype Step =
    | LoadFinish(request: nat, status: string, names: seq<string>)
    | LoadComplete(request: nat)
    | Commit(request: nat)
    | Raise(request: nat)
    | LoadUpload(upload: nat, name: string)
    | CommitUpload(upload: nat)
    | Fail

  predicate AllUploaded(files: Files) {
    files.Some? ==> forall f :: f in files.value ==> files.value[f]
  }

  predicate IsEmpty(files: Files) {
    files.None? || files.value == map[]
  }

  function Declared(names: seq<string>): map<string, bool> {
    map f | f in names :: false
  }

  function FinishStatus(status: string, names: seq<string>): string {
    if status == "complete" && names != [] then "complete_pending_uploads" else status
  }

  function CompleteStatus(status: string, files: Files): string {
    if IsEmpty(files) || !("complete" <= status) then status
    else if AllUploaded(files) then "complete"
    else "partial_failure"
  }

  function LoadedFinish(s: State, status: string, names: seq<string>): Handler {
    Handler(Change(s.status, FinishStatus(status, names)), Change(s.files, Some(Declared(names))), false)
  }

  function LoadedComplete(s: State): Handler {
    Handler(Change(s.status, CompleteStatus(s.status, s.files)), Change(s.files, s.files), true)
  }

  function AfterCommit(s: State, r: nat): State
    requires r in s.handlers
  {
    var h := s.handlers[r];
    s.(status := h.status.Written(s.status), files := h.files.Written(s.files), finished := s.finished || h.ends,
       handlers := s.handlers - {r})
  }

  // The flag is set in the row as it then is; setting it in an entry that is not there makes the column null.
  function Flagged(files: Files, name: string): Files {
    if files.Some? && name in files.value then Some(files.value[name := true]) else None
  }

  // A handler that finds the job finished raises, as does an upload for a file that is not declared. A deletion of the
  // job's instance fails the job in between.
  function Apply(s: State, step: Step): State {
    match step
    case LoadFinish(r, status, names) =>
      if r !in s.handlers && !s.finished then s.(handlers := s.handlers[r := LoadedFinish(s, status, names)]) else s
    case LoadComplete(r) =>
      if r !in s.handlers && !s.finished then s.(handlers := s.handlers[r := LoadedComplete(s)]) else s
    case Commit(r) => if r in s.handlers then AfterCommit(s, r) else s
    case Raise(r) => s.(handlers := s.handlers - {r})
    case LoadUpload(u, f) =>
      if u !in s.uploads && !s.finished && s.files.Some? && f in s.files.value then s.(uploads := s.uploads[u := f]) else s
    case CommitUpload(u) =>
      if u in s.uploads then s.(files := Flagged(s.files, s.uploads[u]), uploads := s.uploads - {u}) else s
    case Fail => s.(status := "error", finished := true)
  }

  function Run(steps: seq<Step>): State {
    if steps == [] then CREATED else Apply(Run(steps[..|steps| - 1]), steps[|steps| - 1])
  }

  /** A job finishes exactly if a completing request commits or the job is failed, the latter with an error; and nothing
      takes that back. */
  lemma FinishesIff(s: State, step: Step)
    ensures Apply(s, step).finished <==>
            s.finished || step.Fail? || (step.Commit? && step.request in s.handlers && s.handlers[step.request].ends)
    ensures step.Fail? ==> Apply(s, step).status == "error"
  {
  }

  /** A handler ends exactly by committing or raising; and what a completing one is going to write is "complete" for a
      complete status with all files there, "partial_failure" for one with a file missing, and else the status it read. */
  lemma CompletionReads(s: State, step: Step, r: nat)
    ensures r in s.handlers ==> (r !in Apply(s, step).handlers <==> step == Commit(r) || step == Raise(r))
    ensures r !in s.handlers && r in Apply(s, LoadComplete(r)).handlers ==>
              var h := Apply(s, LoadComplete(r)).handlers[r];
              && h.ends && h.status.was == s.status && h.files == Change(s.files, s.files)
              && h.status.now == if s.files.None? || s.files.value == map[] || !("complete" <= s.status) then s.status
                                 else if exists f :: f in s.files.value && !s.files.value[f] then "partial_failure"
                                 else "complete"
  {
    hide LoadedFinish;
  }

  // At no point of the run are more than k finishing or completing handlers between their reads and their commit. Uploads
  // are not limited.
  predicate Overlap(steps: seq<Step>, k: nat) {
    forall n :: 0 <= n <= |steps| ==> |Run(steps[..n]).handlers| <= k
  }

  predicate Promise(s: State) {
    s.status == "complete" ==> AllUploaded(s.files)
  }

  // What a handler on its own may rely on when it commits.
  predicate Ready(s: State, h: Handler) {
    && (s.status == h.status.was || s.status == "error")
    && (h.ends ==> h.files.was == h.files.now && (h.status.now == "complete" ==> AllUploaded(s.files)))
    && (!h.ends && h.status.now == "complete" ==>
          h.files.now == Some(map[]) && (h.files.was == h.files.now ==> IsEmpty(s.files)))
  }

  predicate Inv(s: State) {
    Promise(s) && forall r :: r in s.handlers ==> Ready(s, s.handlers[r])
  }

  lemma FlaggedStays(files: Files, name: string)
    ensures AllUploaded(files) ==> AllUploaded(Flagged(files, name))
    ensures IsEmpty(files) ==> IsEmpty(Flagged(files, name))
  {
  }

  lemma OnlyOne(handlers: map<nat, Handler>, r: nat)
    requires |handlers| <= 1 && r in handlers
    ensures handlers.Keys == {r}
  {
    var rest := handlers.Keys - {r};
    assert handlers.Keys == rest + {r};
    assert |handlers.Keys| == |rest| + 1;
  }

  lemma LoadKeeps(s: State, r: nat, h: Handler)
    requires Promise(s) && |s.handlers[r := h]| <= 1 && Ready(s, h)
    ensures Inv(s.(handlers := s.handlers[r := h]))
  {
    OnlyOne(s.handlers[r := h], r);
    hide Ready, Promise;
    var t := s.(handlers := s.handlers[r := h]);
    assert Promise(t) by { SamePromise(s, t); }
    assert Ready(t, h) by { SameReady(s, t, h); }
  }

  lemma SamePromise(s: State, t: State)
    requires s.status == t.status && s.files == t.files
    ensures Promise(s) <==> Promise(t)
  {
  }

  lemma SameReady(s: State, t: State, h: Handler)
    requires s.status == t.status && s.files == t.files
    ensures Ready(s, h) <==> Ready(t, h)
  {
  }

  lemma LoadedIsReady(s: State, status: string, names: seq<string>)
    ensures Ready(s, LoadedFinish(s, status, names)) && Ready(s, LoadedComplete(s))
  {
    assert |"complete_pending_uploads"| != |"complete"|;
    assert |"partial_failure"| != |"complete"|;
    if FinishStatus(status, names) == "complete" {
      assert names == [];
      assert Declared(names) == map[];
    }
  }

  lemma CommitKeeps(s: State, r: nat)
    requires Inv(s) && |s.handlers| <= 1 && r in s.handlers
    ensures Inv(AfterCommit(s, r))
  {
    OnlyOne(s.handlers, r);
    assert AfterCommit(s, r).handlers.Keys == {};
    assert |"error"| != |"complete"|;
    assert Ready(s, s.handlers[r]);
  }

  lemma UploadKeeps(s: State, u: nat)
    requires Inv(s)
    ensures Inv(Apply(s, CommitUpload(u)))
  {
    if u in s.uploads {
      FlaggedStays(s.files, s.uploads[u]);
    }
  }

  lemma FailKeeps(s: State)
    requires Inv(s)
    ensures Inv(Apply(s, Fail))
  {
    assert |"error"| != |"complete"|;
  }

  lemma StepKeeps(s: State, step: Step)
    requires Inv(s) && |s.handlers| <= 1 && |Apply(s, step).handlers| <= 1
    ensures Inv(Apply(s, step))
  {
    hide LoadedFinish, LoadedComplete, Ready, Promise, Flagged, AfterCommit;
    match step
    case LoadFinish(r, status, names) =>
      if r !in s.handlers && !s.finished {
        LoadedIsReady(s, status, names);
        LoadKeeps(s, r, LoadedFinish(s, status, names));
      }
    case LoadComplete(r) =>
      if r !in s.handlers && !s.finished {
        LoadedIsReady(s, "", []);
        LoadKeeps(s, r, LoadedComplete(s));
      }
    case Commit(r) =>
      if r in s.handlers {
        CommitKeeps(s, r);
      }
    case Raise(r) => FewerKeeps(s, Apply(s, step));
    case LoadUpload(_, _) => FewerKeeps(s, Apply(s, step));
    case CommitUpload(u) => UploadKeeps(s, u);
    case Fail => FailKeeps(s);
  }

  lemma FewerKeeps(s: State, t: State)
    requires Inv(s) && s.status == t.status && s.files == t.files
    requires forall r :: r in t.handlers ==> r in s.handlers && t.handlers[r] == s.handlers[r]
    ensures Inv(t)
  {
  }

  lemma OverlapPrefix(steps: seq<Step>, k: nat, n: nat)
    requires n <= |steps| && Overlap(steps, k)
    ensures Overlap(steps[..n], k)
  {
    forall j | 0 <= j <= n ensures |Run(steps[..n][..j]).handlers| <= k {
      assert steps[..n][..j] == steps[..j];
    }
  }

  lemma {:induction false} SerialRunKeeps(steps: seq<Step>)
    requires Overlap(steps, 1)
    ensures Inv(Run(steps))
  {
    if steps != [] {
      var n := |steps| - 1;
      OverlapPrefix(steps, 1, n);
      SerialRunKeeps(steps[..n]);
      assert steps[..|steps|] == steps && steps[..n][..n] == steps[..n];
      hide Inv, Apply;
      StepKeeps(Run(steps[..n]), steps[n]);
    } else {
      assert |"pending"| != |"complete"|;
    }
  }

  lemma Extend(steps: seq<Step>, k: nat, step: Step) returns (more: seq<Step>)
    requires Overlap(steps, k) && |Apply(Run(steps), step).handlers| <= k
    ensures more == steps + [step] && Overlap(more, k) && Run(more) == Apply(Run(steps), step)
  {
    more := steps + [step];
    assert more[..|steps|] == steps;
    forall n | 0 <= n <= |more| ensures |Run(more[..n]).handlers| <= k {
      if n <= |steps| {
        assert more[..n] == steps[..n];
      } else {
        assert more[..n] == more;
      }
    }
  }

  lemma OneHandler(h: Handler)
    ensures |(map[])[0 := h]| == 1 && (map[])[0 := h] - {0} == map[]
  {
    assert ((map[])[0 := h]).Keys == {0};
  }

  lemma FinishSteps(s: State, status: string, names: seq<string>)
    requires s.handlers == map[] && !s.finished
    ensures var t := Apply(s, LoadFinish(0, status, names));
            && |t.handlers| == 1
            && Apply(t, Commit(0)) == s.(status := FinishStatus(status, names), files := Some(Declared(names)))
  {
    hide FinishStatus, Declared;
    OneHandler(LoadedFinish(s, status, names));
  }

  // A finishing request on its own.
  lemma FinishAlone(steps: seq<Step>, k: nat, status: string, names: seq<string>) returns (more: seq<Step>)
    requires k >= 1 && Overlap(steps, k) && Run(steps).handlers == map[] && !Run(steps).finished
    ensures Overlap(more, k)
    ensures Run(more) == Run(steps).(status := FinishStatus(status, names), files := Some(Declared(names)))
  {
    hide Run, Overlap, Apply, FinishStatus, Declared;
    FinishSteps(Run(steps), status, names);
    more := Extend(steps, k, LoadFinish(0, status, names));
    more := Extend(more, k, Commit(0));
  }

  lemma NoSteps(k: nat)
    ensures Overlap([], k) && Run([]) == CREATED
  {
  }

  // One file was declared, and is yet to be uploaded.
  lemma Finished(k: nat) returns (steps: seq<Step>)
    requires k >= 1
    ensures Overlap(steps, k)
    ensures Run(steps) == CREATED.(status := "complete_pending_uploads", files := Some(map["a" := false]))
  {
    NoSteps(k);
    hide Run, Overlap;
    steps := FinishAlone([], k, "complete", ["a"]);
    assert Declared(["a"]) == map["a" := false];
  }

  lemma UploadSteps(s: State)
    requires s.files == Some(map["a" := false]) && s.uploads == map[] && !s.finished
    ensures var t := Apply(s, LoadUpload(0, "a"));
            && t == s.(uploads := map[0 := "a"])
            && Apply(t, CommitUpload(0)) == s.(files := Some(map["a" := true]))
  {
    assert (map[])[0 := "a"] == map[0 := "a"] && map[0 := "a"] - {0} == map[];
    assert map["a" := false]["a" := true] == map["a" := true];
  }

  // It is uploaded.
  lemma Uploaded(k: nat) returns (steps: seq<Step>)
    requires k >= 1
    ensures Overlap(steps, k)
    ensures Run(steps) == CREATED.(status := "complete_pending_uploads", files := Some(map["a" := true]))
  {
    steps := Finished(k);
    UploadSteps(Run(steps));
    hide Run, Overlap, Apply;
    steps := Extend(steps, k, LoadUpload(0, "a"));
    steps := Extend(steps, k, CommitUpload(0));
  }

  lemma TwoHandlers(g: Handler, h: Handler)
    ensures var one, two := (map[])[0 := g], (map[])[0 := g][1 := h];
            && |one| == 1 && |two| == 2 && two - {1} == one && two[1] == h && two[0] == g && one - {0} == map[]
  {
    assert ((map[])[0 := g]).Keys == {0} && ((map[])[0 := g][1 := h]).Keys == {0, 1};
  }

  // What a completion and a finishing request read then.
  lemma StaleReads(s: State)
    requires s.status == "complete_pending_uploads" && s.files == Some(map["a" := true])
    ensures LoadedComplete(s) == Handler(Change(s.status, "complete"), Change(s.files, s.files), true)
    ensures LoadedFinish(s, "complete", ["a"])
            == Handler(Change(s.status, s.status), Change(s.files, Some(map["a" := false])), false)
  {
    assert "complete_pending_uploads"[..8] == "complete";
    assert "a" in s.files.value;
    assert Declared(["a"]) == map["a" := false];
  }

  // It is completed while it is finished anew.
  lemma StaleSteps(s: State)
    requires s.status == "complete_pending_uploads" && s.files == Some(map["a" := true])
    requires s.handlers == map[] && !s.finished
    ensures var t := Apply(s, LoadComplete(0));
            var u := Apply(t, LoadFinish(1, "complete", ["a"]));
            var v := Apply(u, Commit(1));
            var w := Apply(v, Commit(0));
            && |t.handlers| == 1 && |u.handlers| == 2 && |v.handlers| == 1 && |w.handlers| == 0
            && w.status == "complete" && w.files == Some(map["a" := false])
  {
    StaleReads(s);
    TwoHandlers(LoadedComplete(s), LoadedFinish(s, "complete", ["a"]));
    var t := Apply(s, LoadComplete(0));
    assert LoadedFinish(t, "complete", ["a"]) == LoadedFinish(s, "complete", ["a"]);
    hide LoadedComplete, LoadedFinish;
    assert |"complete_pending_uploads"| != |"complete"|;
    assert map["a" := false]["a"] != map["a" := true]["a"];
  }

  lemma StaleCompletion(k: nat) returns (steps: seq<Step>)
    requires k >= 2
    ensures Overlap(steps, k) && !Promise(Run(steps))
  {
    steps := Uploaded(k);
    StaleSteps(Run(steps));
    hide Run, Overlap, Apply;
    steps := Extend(steps, k, LoadComplete(0));
    steps := Extend(steps, k, LoadFinish(1, "complete", ["a"]));
    steps := Extend(steps, k, Commit(1));
    steps := Extend(steps, k, Commit(0));
    assert "a" in Run(steps).files.value;
  }

  /** A job that is complete has every declared file uploaded, in every run with at most k overlapping finishing and
      completing requests and any uploads: exactly when k is at most one. */
  lemma CompleteMeansUploadedIff(k: nat)
    ensures k <= 1 <==> forall steps :: Overlap(steps, k) ==> (Run(steps).status == "complete" ==> AllUploaded(Run(steps).files))
  {
    if k <= 1 {
      forall steps | Overlap(steps, k) ensures Promise(Run(steps)) {
        assert Overlap(steps, 1);
        SerialRunKeeps(steps);
      }
    } else {
      var steps := StaleCompletion(k);
      assert Overlap(steps, k) && !Promise(Run(steps));
    }
  }

  // ---- Uploads that come late ----

  // The file of every upload on its way is declared.
  predicate UploadsDeclared(s: State) {
    forall u :: u in s.uploads ==> s.files.Some? && s.uploads[u] in s.files.value
  }

  // A commit drops the declaration of a file whose upload is on its way.
  predicate Strands(s: State, step: Step) {
    && step.Commit? && step.request in s.handlers
    && exists u :: u in s.uploads && s.uploads[u] !in s.handlers[step.request].files.Written(s.files).GetOr(map[])
  }

  ghost predicate NoneStranded(steps: seq<Step>) {
    forall n :: 0 <= n < |steps| ==> !Strands(Run(steps[..n]), steps[n])
  }

  lemma StepStrandsIff(s: State, step: Step)
    requires UploadsDeclared(s)
    ensures UploadsDeclared(Apply(s, step)) <==> !Strands(s, step)
  {
    hide LoadedFinish, LoadedComplete;
  }

  lemma NoneStrandedPrefix(steps: seq<Step>, n: nat)
    requires NoneStranded(steps) && n <= |steps|
    ensures NoneStranded(steps[..n])
  {
    forall m | 0 <= m < n ensures !Strands(Run(steps[..n][..m]), steps[..n][m]) {
      assert steps[..n][..m] == steps[..m];
    }
  }

  /** Every upload on its way is for a declared file, up to and exactly up to the first request that finishes the job anew
      without that file. */
  lemma {:induction false} UploadsStayDeclared(steps: seq<Step>)
    requires steps != [] ==> NoneStranded(steps[..|steps| - 1])
    ensures UploadsDeclared(Run(steps)) <==> NoneStranded(steps)
  {
    hide Apply, UploadsDeclared, Strands, NoneStranded;
    if steps == [] {
      NothingUploads();
    } else {
      var n := |steps| - 1;
      if n > 0 {
        NoneStrandedPrefix(steps[..n], n - 1);
        assert steps[..n][..n - 1] == steps[..n - 1];
      }
      UploadsStayDeclared(steps[..n]);
      StepStrandsIff(Run(steps[..n]), steps[n]);
      OneMore(steps);
    }
  }

  lemma NothingUploads()
    ensures UploadsDeclared(CREATED) && NoneStranded([])
  {
  }

  lemma OneMore(steps: seq<Step>)
    requires steps != [] && NoneStranded(steps[..|steps| - 1])
    ensures NoneStranded(steps) <==> !Strands(Run(steps[..|steps| - 1]), steps[|steps| - 1])
  {
    hide Run, Strands;
    var n := |steps| - 1;
    forall m | 0 <= m < n ensures !Strands(Run(steps[..m]), steps[m]) {
      assert steps[..n][..m] == steps[..m] && steps[..n][m] == steps[m];
    }
  }

  /** An upload sets the flag of its own file if that is still declared, as it is until such a request; otherwise it makes
      the column null, whatever had been declared and uploaded. */
  lemma LateUploadErases(steps: seq<Step>, u: nat)
    requires u in Run(steps).uploads && Run(steps).files.Some?
    ensures var s, t := Run(steps), Apply(Run(steps), CommitUpload(u));
            if s.uploads[u] in s.files.value then t.files == Some(s.files.value[s.uploads[u] := true])
            else t.files.None?
    ensures NoneStranded(steps) ==> Run(steps).uploads[u] in Run(steps).files.value
  {
    if NoneStranded(steps) {
      if steps != [] {
        NoneStrandedPrefix(steps, |steps| - 1);
      }
      UploadsStayDeclared(steps);
    }
  }

  /** That does happen, even with one request after the other: the job is finished with one file, its upload starts, the
      job is finished again with another file, and the upload commits. */
  lemma FilesAreErased() returns (steps: seq<Step>)
    ensures Overlap(steps, 1) && Run(steps).files == Some(map["b" := false]) && 0 in Run(steps).uploads
    ensures Apply(Run(steps), CommitUpload(0)).files.None?
  {
    steps := Finished(1);
    UploadSteps(Run(steps));
    hide Run, Overlap, Apply;
    steps := Extend(steps, 1, LoadUpload(0, "a"));
    steps := FinishAlone(steps, 1, "complete", ["b"]);
    LateUpload(Run(steps));
  }

  lemma LateUpload(s: State)
    requires s.files == Some(Declared(["b"])) && s.uploads == map[0 := "a"]
    ensures s.files == Some(map["b" := false]) && Apply(s, CommitUpload(0)).files.None?
  {
    assert Declared(["b"]) == map["b" := false];
    assert "a"[0] != "b"[0];
  }

  /** The row and the handlers that write it. */
  class Row {
    var status: string
    var files: Files
    var finished: bool
    var handlers: map<nat, Handler>
    var uploads: map<nat, string>

    function Now(): State
      reads this
    {
      State(status, files, finished, handlers, uploads)
    }

    constructor ()
      ensures Now() == CREATED
    {
      status, files, finished, handlers, uploads := "pending", None, false, map[], map[];
    }

    // finish_job_and_get_upload_targets up to its commit; `false` is the 400 response.
    method BeginFinish(request: nat, requested: string, names: seq<string>) returns (ok: bool)
      requires request !in handlers
      modifies this
      ensures Now() == Apply(old(Now()), LoadFinish(request, requested, names))
      ensures ok <==> !old(finished)
    {
      if finished {
        return false;
      }
      var newStatus := requested;
      if newStatus == "complete" && names != [] {
        newStatus := "complete_pending_uploads";
      }
      var declared: map<string, bool> := map[];
      for i := 0 to |names|
        invariant declared == Declared(names[..i]) && Now() == old(Now())
      {
        assert names[..i + 1] == names[..i] + [names[i]];
        declared := declared[names[i] := false];
      }
      assert names[..|names|] == names;
      handlers := handlers[request := Handler(Change(status, newStatus), Change(files, Some(declared)), false)];
      ok := true;
    }

    // complete_job up to its commit.
    method BeginComplete(request: nat) returns (ok: bool)
      requires request !in handlers
      modifies this
      ensures Now() == Apply(old(Now()), LoadComplete(request))
      ensures ok <==> !old(finished)
    {
      if finished {
        return false;
      }
      var newStatus := status;
      if files.Some? && files.value != map[] {
        var uploaded := true;
        var todo := files.value.Keys;
        while todo != {}
          invariant files.Some? && todo <= files.value.Keys && Now() == old(Now())
          invariant uploaded <==> forall f :: f in files.value && f !in todo ==> files.value[f]
          decreases |todo|
        {
          var f :| f in todo;
          todo := todo - {f};
          uploaded := uploaded && files.value[f];
        }
        if !uploaded {
          if "complete" <= status {
            newStatus := "partial_failure";
          }
        } else if "complete" <= status {
          newStatus := "complete";
        }
      }
      handlers := handlers[request := Handler(Change(status, newStatus), Change(files, files), true)];
      ok := true;
    }

    // The commit of either, which writes the columns that changed.
    method End(request: nat)
      requires request in handlers
      modifies this
      ensures Now() == Apply(old(Now()), Commit(request))
    {
      var h := handlers[request];
      handlers := handlers - {request};
      if h.status.was != h.status.now {
        status := h.status.now;
      }
      if h.files.was != h.files.now {
        files := h.files.now;
      }
      if h.ends {
        finished := true;
      }
    }

    // The second half of upload_job_file.
    method EndUpload(upload: nat)
      requires upload in uploads
      modifies this
      ensures Now() == Apply(old(Now()), CommitUpload(upload))
    {
      var name := uploads[upload];
      uploads := uploads - {upload};
      files := if files.Some? && name in files.value then Some(files.value[name := true]) else None;
    }
  }
}
