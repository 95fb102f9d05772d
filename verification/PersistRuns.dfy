/** Runs of the file operations of any number of saves, interleaved freely and cut off
    anywhere (server/src/operator.rs, client/src/secret_file.rs). */
module PersistRuns {
  import opened Basics
  import opened Persist

  /** A file is created under a temporary name, written, and renamed. */
  datatype Phase = Idle | Made(t: nat) | Written(t: nat)

  datatype Progress = Saving(stage: Stage, phase: Phase) | Published | Failed

  /** A save: its random id, whose it is, the generation it started from, the SDK
      authorization it stores and how far it got. */
  datatype Save = Save(id: nat, owner: Owner, gen: Gen, sdk: Content, progress: Progress)

  /** The credentials of a generation never change. */
  type Sessions = Gen -> Content

  datatype World = World(
    files: Files,
    saves: seq<Save>,
    published: seq<nat>)  // history: the saves whose pointer was published, in order

  /** `current` and `usable` are what the client says at that moment. */
  datatype Event =
    | Begin(save: Save)
    | Make(c: nat, t: nat, current: Gen, usable: bool)
    | Write(c: nat)
    | Rename(c: nat)
    | Fail(c: nat, keep: bool)  // an error, or a crash that leaves the temporary file

  predicate At(w: World, c: nat, stage: Stage, phase: Phase) {
    c < |w.saves| && w.saves[c].progress == Saving(stage, phase)
  }

  predicate Enabled(w: World, e: Event) {
    match e
    case Begin(s) => s.progress == Saving(SdkStage, Idle) && s.sdk.Sdk?
    case Make(c, t, _, _) =>
      c < |w.saves| && w.saves[c].progress.Saving? && w.saves[c].progress.phase.Idle? && Temp(t) !in w.files
    case Write(c) => c < |w.saves| && w.saves[c].progress.Saving? && w.saves[c].progress.phase.Made?
    case Rename(c) => c < |w.saves| && w.saves[c].progress.Saving? && w.saves[c].progress.phase.Written?
    case Fail(c, _) => c < |w.saves| && w.saves[c].progress.Saving?
  }

  function Target(s: Save, stage: Stage): Name {
    match stage
    case SdkStage => SdkFile(s.id)
    case GameStage => GameFile(s.id)
    case PointerStage => Current
  }

  function Bytes(sessions: Sessions, s: Save, stage: Stage): Content {
    match stage
    case SdkStage => s.sdk
    case GameStage => sessions(s.gen)
    case PointerStage => PointerTo(s.owner, s.id)
  }

  function With(w: World, c: nat, progress: Progress): seq<Save>
    requires c < |w.saves|
  {
    w.saves[c := w.saves[c].(progress := progress)]
  }

  function Temps(p: Progress): set<Name> {
    if p.Saving? && !p.phase.Idle? then {Temp(p.phase.t)} else {}
  }

  function Next(stage: Stage): Progress {
    match stage
    case SdkStage => Saving(GameStage, Idle)
    case GameStage => Saving(PointerStage, Idle)
    case PointerStage => Published
  }

  function Renamed(w: World, c: nat): World
    requires Enabled(w, Rename(c))
  {
    var s := w.saves[c];
    var stage, temp := s.progress.stage, Temp(s.progress.phase.t);
    if stage != PointerStage && Target(s, stage) in w.files then
      w.(files := w.files - {temp}, saves := With(w, c, Failed))
    else
      var content := if temp in w.files then w.files[temp] else Partial;
      w.(files := (w.files - {temp})[Target(s, stage) := content], saves := With(w, c, Next(stage)),
         published := if stage == PointerStage then w.published + [c] else w.published)
  }

  function Step(sessions: Sessions, w: World, e: Event): World
    requires Enabled(w, e)
  {
    match e
    case Begin(s) => w.(saves := w.saves + [s])
    case Make(c, t, current, usable) =>
      var s := w.saves[c];
      var stage := s.progress.stage;
      if stage != SdkStage && (current != s.gen || (stage == GameStage && !usable)) then w.(saves := With(w, c, Failed))
      else w.(files := w.files[Temp(t) := Partial], saves := With(w, c, Saving(stage, Made(t))))
    case Write(c) =>
      var s := w.saves[c];
      var stage, t := s.progress.stage, s.progress.phase.t;
      w.(files := w.files[Temp(t) := Bytes(sessions, s, stage)], saves := With(w, c, Saving(stage, Written(t))))
    case Rename(c) => Renamed(w, c)
    case Fail(c, keep) =>
      w.(files := if keep then w.files else w.files - Temps(w.saves[c].progress), saves := With(w, c, Failed))
  }

  predicate Initial(w: World) {
    w.files == map[] && w.saves == [] && w.published == []
  }

  /** States and the events between them. */
  ghost predicate Steps(sessions: Sessions, ws: seq<World>, es: seq<Event>) {
    && |ws| == |es| + 1
    && forall k {:trigger es[k]} :: 0 <= k < |es| ==> Enabled(ws[k], es[k]) && ws[k + 1] == Step(sessions, ws[k], es[k])
  }

  ghost predicate Run(sessions: Sessions, ws: seq<World>, es: seq<Event>) {
    Steps(sessions, ws, es) && Initial(ws[0])
  }

  // ----- Invariants -----

  /** How far a save got, as a number of finished stages. */
  function Finished(p: Progress): nat {
    match p
    case Saving(SdkStage, _) => 0
    case Saving(GameStage, _) => 1
    case Saving(PointerStage, _) => 2
    case Published => 3
    case Failed => 0
  }

  predicate Holds(files: Files, n: Name, content: Content) {
    n in files && files[n] == content
  }

  /** The snapshots of a save are there once it has finished them, and its temporary
      file is there while it needs one. */
  predicate InPlace(sessions: Sessions, files: Files, s: Save) {
    && (Finished(s.progress) >= 1 ==> Holds(files, SdkFile(s.id), s.sdk))
    && (Finished(s.progress) >= 2 ==> Holds(files, GameFile(s.id), sessions(s.gen)))
    && (forall n :: n in Temps(s.progress) ==> n in files)
    && (s.progress.Saving? && s.progress.phase.Written? ==>
          Holds(files, Temp(s.progress.phase.t), Bytes(sessions, s, s.progress.stage)))
  }

  ghost predicate AllInPlace(sessions: Sessions, w: World) {
    && (forall c :: 0 <= c < |w.saves| ==> InPlace(sessions, w.files, w.saves[c]))
    && forall a, b :: 0 <= a < b < |w.saves| ==> Temps(w.saves[a].progress) !! Temps(w.saves[b].progress)
  }

  ghost predicate PointsToLast(w: World) {
    && (forall k :: 0 <= k < |w.published| ==>
          w.published[k] < |w.saves| && w.saves[w.published[k]].progress == Published)
    && (Current in w.files <==> w.published != [])
    && (w.published != [] ==>
          var s := w.saves[w.published[|w.published| - 1]];
          w.files[Current] == PointerTo(s.owner, s.id))
  }

  /** No two saves in progress or published share an id once their first file is there. */
  ghost predicate Apart(w: World) {
    forall a, b :: 0 <= a < b < |w.saves| && Finished(w.saves[a].progress) >= 1
                   && Finished(w.saves[b].progress) >= 1 ==>
      w.saves[a].id != w.saves[b].id
  }

  /** A save that gets its first file in place needs an id of its own. */
  lemma OneMoveApart(w: World, w': World, c: nat, progress: Progress)
    requires Apart(w) && c < |w.saves| && w'.saves == With(w, c, progress)
    requires Finished(w.saves[c].progress) == 0 && Finished(progress) >= 1 ==>
      forall b :: 0 <= b < |w.saves| && b != c && Finished(w.saves[b].progress) >= 1 ==> w.saves[b].id != w.saves[c].id
    ensures Apart(w')
  {
  }

  lemma RenameApart(sessions: Sessions, w: World, c: nat)
    requires AllInPlace(sessions, w) && Apart(w) && Enabled(w, Rename(c))
    ensures Apart(Renamed(w, c))
  {
    forall b | 0 <= b < |w.saves| && b != c && Finished(w.saves[b].progress) >= 1
      ensures SdkFile(w.saves[b].id) in w.files
    {
      assert InPlace(sessions, w.files, w.saves[b]);
    }
    OneMoveApart(w, Renamed(w, c), c, Renamed(w, c).saves[c].progress);
  }

  lemma StepApart(sessions: Sessions, w: World, e: Event)
    requires AllInPlace(sessions, w) && Apart(w) && Enabled(w, e)
    ensures Apart(Step(sessions, w, e))
  {
    if e.Rename? {
      RenameApart(sessions, w, e.c);
    } else if !e.Begin? {
      OneMoveApart(w, Step(sessions, w, e), e.c, Step(sessions, w, e).saves[e.c].progress);
    }
  }

  /** Changing files that a save does not need keeps it in place. */
  lemma StaysInPlace(sessions: Sessions, before: Files, after: Files, s: Save)
    requires InPlace(sessions, before, s)
    requires forall n :: n in before && (Snapshot(n) || n in Temps(s.progress)) ==> Holds(after, n, before[n])
    ensures InPlace(sessions, after, s)
  {
  }

  lemma OthersStay(sessions: Sessions, w: World, w': World, c: nat, touched: set<Name>)
    requires AllInPlace(sessions, w) && c < |w.saves|
    requires |w'.saves| == |w.saves| && w'.saves == With(w, c, w'.saves[c].progress)
    requires touched <= Temps(w.saves[c].progress) + Temps(w'.saves[c].progress)
    requires forall n :: n in w.files && n !in touched && n != Current ==> Holds(w'.files, n, w.files[n])
    requires forall n :: n in Temps(w'.saves[c].progress) ==> n in Temps(w.saves[c].progress) || n !in w.files
    requires forall n :: n in touched ==> n.Temp?
    requires InPlace(sessions, w'.files, w'.saves[c])
    ensures AllInPlace(sessions, w')
  {
    forall b | 0 <= b < |w.saves| && b != c
      ensures InPlace(sessions, w'.files, w'.saves[b])
      ensures Temps(w.saves[b].progress) !! Temps(w'.saves[c].progress)
    {
      assert InPlace(sessions, w.files, w.saves[b]);
      assert Temps(w.saves[b].progress) !! Temps(w.saves[c].progress);
      assert Temps(w.saves[b].progress) !! Temps(w'.saves[c].progress);
      StaysInPlace(sessions, w.files, w'.files, w.saves[b]);
    }
  }

  lemma RenameStays(sessions: Sessions, w: World, c: nat)
    requires AllInPlace(sessions, w) && Enabled(w, Rename(c))
    ensures AllInPlace(sessions, Renamed(w, c))
  {
    assert InPlace(sessions, w.files, w.saves[c]);
    OthersStay(sessions, w, Renamed(w, c), c, Temps(w.saves[c].progress));
  }

  lemma StepStays(sessions: Sessions, w: World, e: Event)
    requires AllInPlace(sessions, w) && Enabled(w, e)
    ensures AllInPlace(sessions, Step(sessions, w, e))
  {
    var w' := Step(sessions, w, e);
    match e {
      case Begin(_) =>
      case Rename(c) => RenameStays(sessions, w, c);
      case Make(c, t, _, _) =>
        assert InPlace(sessions, w.files, w.saves[c]);
        OthersStay(sessions, w, w', c, {});
      case Write(c) =>
        assert InPlace(sessions, w.files, w.saves[c]);
        OthersStay(sessions, w, w', c, Temps(w.saves[c].progress));
      case Fail(c, keep) =>
        assert InPlace(sessions, w.files, w.saves[c]);
        OthersStay(sessions, w, w', c, Temps(w.saves[c].progress));
    }
  }

  lemma RenamePoints(sessions: Sessions, w: World, c: nat)
    requires AllInPlace(sessions, w) && PointsToLast(w) && Enabled(w, Rename(c))
    ensures PointsToLast(Renamed(w, c))
  {
    assert InPlace(sessions, w.files, w.saves[c]);
  }

  lemma StepPoints(sessions: Sessions, w: World, e: Event)
    requires AllInPlace(sessions, w) && PointsToLast(w) && Enabled(w, e)
    ensures PointsToLast(Step(sessions, w, e))
  {
    if e.Rename? {
      RenamePoints(sessions, w, e.c);
    } else {
      var w' := Step(sessions, w, e);
      assert w'.published == w.published && (Current in w'.files <==> Current in w.files);
    }
  }

  /** Snapshots, saves and the history only grow. */
  ghost predicate Grows(w: World, w': World) {
    && SnapshotsKept(w.files, w'.files)
    && w.published <= w'.published && |w.saves| <= |w'.saves|
    && forall c :: 0 <= c < |w.saves| ==>
         w'.saves[c].(progress := Failed) == w.saves[c].(progress := Failed) &&
         (w.saves[c].progress == Published ==> w'.saves[c].progress == Published)
  }

  lemma StepGrows(sessions: Sessions, w: World, e: Event)
    requires Enabled(w, e)
    ensures Grows(w, Step(sessions, w, e))
  {
  }

  lemma {:induction false} Always(sessions: Sessions, ws: seq<World>, es: seq<Event>, k: nat)
    requires Run(sessions, ws, es) && k <= |es|
    ensures AllInPlace(sessions, ws[k]) && PointsToLast(ws[k]) && Apart(ws[k])
  {
    if k > 0 {
      Always(sessions, ws, es, k - 1);
      var e := es[k - 1];
      StepStays(sessions, ws[k - 1], e);
      StepPoints(sessions, ws[k - 1], e);
      StepApart(sessions, ws[k - 1], e);
    }
  }

  lemma {:induction false} AlwaysGrows(sessions: Sessions, ws: seq<World>, es: seq<Event>, i: nat, k: nat)
    requires Run(sessions, ws, es) && i <= k <= |es|
    ensures Grows(ws[i], ws[k])
  {
    if i < k {
      AlwaysGrows(sessions, ws, es, i, k - 1);
      var e := es[k - 1];
      StepGrows(sessions, ws[k - 1], e);
    }
  }

  // ----- Theorems -----

  /** After any prefix of the operations, the pointer, if there is one, is that of the
      last save that published, and names two complete files of that same save, whose
      credentials are those of the generation it started from. */
  lemma PointerNamesWholeSave(sessions: Sessions, ws: seq<World>, es: seq<Event>, k: nat)
    requires Run(sessions, ws, es) && k <= |es|
    ensures Current in ws[k].files <==> ws[k].published != []
    ensures ws[k].published != [] ==>
      var c := ws[k].published[|ws[k].published| - 1];
      c < |ws[k].saves| &&
      var s := ws[k].saves[c];
      Holds(ws[k].files, Current, PointerTo(s.owner, s.id)) &&
      Holds(ws[k].files, SdkFile(s.id), s.sdk) && Holds(ws[k].files, GameFile(s.id), sessions(s.gen))
  {
    Always(sessions, ws, es, k);
    if ws[k].published != [] {
      assert InPlace(sessions, ws[k].files, ws[k].saves[ws[k].published[|ws[k].published| - 1]]);
    }
  }

  /** What is loaded at any time is what the last publishing save stored, for its owner
      only. */
  lemma LoadsLastPublished(sessions: Sessions, ws: seq<World>, es: seq<Event>, k: nat, reader: Owner)
    requires Run(sessions, ws, es) && k <= |es| && forall g :: sessions(g).Game?
    ensures ws[k].published == [] ==> LoadGame(ws[k].files, reader) == Ok(None)
    ensures ws[k].published != [] ==>
      var c := ws[k].published[|ws[k].published| - 1];
      c < |ws[k].saves| &&
      LoadGame(ws[k].files, reader) ==
        if reader == ws[k].saves[c].owner then Ok(Some(sessions(ws[k].saves[c].gen))) else Err(())
  {
    PointerNamesWholeSave(sessions, ws, es, k);
  }

  /** Every pointer ever published stays loadable: its two files are never overwritten. */
  lemma PublishedStaysLoadable(sessions: Sessions, ws: seq<World>, es: seq<Event>, i: nat, k: nat, c: nat)
    requires Run(sessions, ws, es) && i <= k <= |es| && c in ws[i].published
    ensures c < |ws[i].saves| <= |ws[k].saves|
    ensures var s := ws[i].saves[c];
            Holds(ws[i].files, SdkFile(s.id), s.sdk) && Holds(ws[i].files, GameFile(s.id), sessions(s.gen)) &&
            Holds(ws[k].files, SdkFile(s.id), s.sdk) && Holds(ws[k].files, GameFile(s.id), sessions(s.gen))
  {
    Always(sessions, ws, es, i);
    AlwaysGrows(sessions, ws, es, i, k);
    assert InPlace(sessions, ws[i].files, ws[i].saves[c]);
  }

  /** Two publishing saves never share a snapshot, even if their random ids collide: at
      most one of them gets past its first file. */
  lemma SavesAreApart(sessions: Sessions, ws: seq<World>, es: seq<Event>, k: nat, a: nat, b: nat)
    requires Run(sessions, ws, es) && k <= |es| && a in ws[k].published && b in ws[k].published && a != b
    ensures a < |ws[k].saves| && b < |ws[k].saves| && ws[k].saves[a].id != ws[k].saves[b].id
  {
    Always(sessions, ws, es, k);
  }

  // ----- A save of a state directory is a run -----

  lemma Extend(sessions: Sessions, ws: seq<World>, es: seq<Event>, vs: seq<World>, ds: seq<Event>)
    requires Steps(sessions, ws, es) && Steps(sessions, vs, ds) && vs[0] == ws[|es|]
    ensures Steps(sessions, ws + vs[1..], es + ds) && (ws + vs[1..])[0] == ws[0]
    ensures (ws + vs[1..])[|es + ds|] == vs[|ds|]
  {
    var us, bs := ws + vs[1..], es + ds;
    forall k {:trigger bs[k]} | 0 <= k < |bs|
      ensures Enabled(us[k], bs[k]) && us[k + 1] == Step(sessions, us[k], bs[k])
    {
      if k < |es| {
        assert bs[k] == es[k] && us[k] == ws[k] && us[k + 1] == ws[k + 1];
      } else {
        var j := k - |es|;
        assert bs[k] == ds[j] && us[k] == vs[j] && us[k + 1] == vs[j + 1];
      }
    }
  }

  lemma OneStep(sessions: Sessions, w: World, e: Event)
    requires Enabled(w, e)
    ensures Steps(sessions, [w, Step(sessions, w, e)], [e])
  {
  }

  /** A stage that goes well: make, write and rename. */
  lemma StageRun(sessions: Sessions, w: World, c: nat, t: nat, stage: Stage) returns (ws: seq<World>, es: seq<Event>)
    requires At(w, c, stage, Idle) && Temp(t) !in w.files
    requires stage == PointerStage || Target(w.saves[c], stage) !in w.files
    ensures Steps(sessions, ws, es) && ws[0] == w
    ensures ws[|es|].files == w.files[Target(w.saves[c], stage) := Bytes(sessions, w.saves[c], stage)]
    ensures ws[|es|].saves == With(w, c, Next(stage))
  {
    var s := w.saves[c];
    var e0 := Make(c, t, s.gen, true);
    var w1 := Step(sessions, w, e0);
    var w2 := Step(sessions, w1, Write(c));
    var w3 := Step(sessions, w2, Rename(c));
    ws, es := [w, w1, w2, w3], [e0, Write(c), Rename(c)];
    assert w2.files - {Temp(t)} == w.files;
    assert w3.saves == With(w, c, Next(stage));
  }

  /** The end of a save that goes no further. */
  lemma StopRun(sessions: Sessions, w: World, c: nat, stage: Stage) returns (ws: seq<World>, es: seq<Event>)
    requires At(w, c, stage, Idle)
    ensures Steps(sessions, ws, es) && ws[0] == w && ws[|es|].files == w.files && ws[|es|].saves == With(w, c, Failed)
  {
    var e := Fail(c, true);
    OneStep(sessions, w, e);
    ws, es := [w, Step(sessions, w, e)], [e];
  }

  /** The save gets at least as far as the stage. */
  predicate Reaches(last: Option<Stage>, stage: Stage) {
    match last
    case None => false
    case Some(SdkStage) => stage == SdkStage
    case Some(GameStage) => stage != PointerStage
    case Some(PointerStage) => true
  }

  /** A save that has put its first files in place goes on to the stage it reaches. */
  lemma {:induction false} RestOfSave(sessions: Sessions, w: World, c: nat, t: nat, stage: Stage, last: Option<Stage>)
    returns (ws: seq<World>, es: seq<Event>)
    requires At(w, c, stage, Idle) && Temp(t) !in w.files
    requires Reaches(last, stage) ==> stage == PointerStage || Target(w.saves[c], stage) !in w.files
    requires Reaches(last, GameStage) && stage == SdkStage ==> GameFile(w.saves[c].id) !in w.files
    ensures Steps(sessions, ws, es) && ws[0] == w
    ensures c < |ws[|es|].saves|
    ensures ws[|es|].saves[c].progress == if last == Some(PointerStage) then Published else Failed
    ensures ws[|es|].files ==
      var s := w.saves[c];
      var one := if stage == SdkStage && Reaches(last, SdkStage) then w.files[SdkFile(s.id) := s.sdk] else w.files;
      var two :=
        if stage != PointerStage && Reaches(last, GameStage) then one[GameFile(s.id) := sessions(s.gen)] else one;
      if last == Some(PointerStage) then two[Current := PointerTo(s.owner, s.id)] else two
    decreases match stage case SdkStage => 3 case GameStage => 2 case PointerStage => 1
  {
    if !Reaches(last, stage) {
      ws, es := StopRun(sessions, w, c, stage);
    } else {
      ws, es := StageRun(sessions, w, c, t, stage);
      if stage != PointerStage {
        var w1 := ws[|es|];
        var vs, ds := RestOfSave(sessions, w1, c, t, Next(stage).stage, last);
        Extend(sessions, ws, es, vs, ds);
        ws, es := ws + vs[1..], es + ds;
      }
    }
  }

  /** Whatever a save of a state directory leaves behind is also what a run of its file
      operations leaves, so the theorems about runs speak about it. */
  lemma SaveIsRun(sessions: Sessions, w: World, s: Save, t: nat, saving: Reading, checking: Gen, faults: Faults)
    returns (ws: seq<World>, es: seq<Event>)
    requires s.progress == Saving(SdkStage, Idle) && s.sdk.Sdk? && Temp(t) !in w.files
    requires saving.gen == s.gen && saving.game.Some? ==> saving.game == Some(sessions(s.gen))
    ensures Steps(sessions, ws, es) && ws[0] == w
    ensures var (files, ok) := Saved(w.files, s.owner, s.sdk, s.id, s.gen, saving, checking, faults);
            ws[|es|].files == files &&
            (ok ==> |w.saves| < |ws[|es|].saves| && ws[|es|].saves[|w.saves|].progress == Published)
  {
    var last := Reached(w.files, s.id, s.gen, saving, checking, faults);
    OneStep(sessions, w, Begin(s));
    var v := Step(sessions, w, Begin(s));
    var vs, ds := RestOfSave(sessions, v, |w.saves|, t, SdkStage, last);
    Extend(sessions, [w, v], [Begin(s)], vs, ds);
    ws, es := [w, v] + vs[1..], [Begin(s)] + ds;
  }
}
