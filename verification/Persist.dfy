/** The login snapshots of an operator's state directory (server/src/operator.rs,
    client/src/secret_file.rs). */
module Persist {
  import opened Basics
  import opened Client

  datatype Owner = Owner(region: string, origin: string)

  /** A temporary file has a name that no other file has. */
  datatype Name = SdkFile(id: nat) | GameFile(id: nat) | Initial | Current | Temp(n: nat)

  /** `Partial` is a file that has been created but not yet written and synced. */
  datatype Content =
    | Partial
    | Sdk(owner: Owner, uid: string, token: nat)
    | Game(owner: Owner, credentials: Credentials)
    | Pointer(owner: Owner, sdk: Name, game: Name)

  type Files = map<Name, Content>

  datatype Stage = SdkStage | GameStage | PointerStage

  /** Files that are only ever created under an unused name. */
  predicate Snapshot(n: Name) {
    n.SdkFile? || n.GameFile? || n.Initial?
  }

  function PointerTo(owner: Owner, id: nat): Content {
    Pointer(owner, SdkFile(id), GameFile(id))
  }

  // ----- Loading -----

  /** The pointer, refused for another owner and for temporary names. */
  function LoadPointer(files: Files, owner: Owner): Option<Content> {
    if Current !in files || !files[Current].Pointer? || files[Current].owner != owner then None
    else if files[Current].sdk.Temp? || files[Current].game.Temp? then None
    else Some(files[Current])
  }

  /** The saved credentials: none if nothing was published, refused if they cannot be read. */
  function LoadGame(files: Files, owner: Owner): Result<Option<Content>, ()> {
    if Current !in files then Ok(None)
    else
      var p := LoadPointer(files, owner);
      if p.None? || p.value.game !in files || !files[p.value.game].Game? then Err(())
      else Ok(Some(files[p.value.game]))
  }

  function LoadSdk(files: Files, owner: Owner): Option<Content> {
    var p := LoadPointer(files, owner);
    if p.None? || p.value.sdk !in files || !files[p.value.sdk].Sdk? || files[p.value.sdk].owner != owner then None
    else Some(files[p.value.sdk])
  }

  /** Published for the owner: a pointer of its own to two permanent files. */
  predicate PublishedFor(files: Files, owner: Owner) {
    && Current in files && files[Current].Pointer? && files[Current].owner == owner
    && !files[Current].sdk.Temp? && !files[Current].game.Temp?
  }

  /** Loading finds nothing before anything is published, and otherwise exactly what the
      owner's own pointer leads to. */
  lemma LoadsExactly(files: Files, owner: Owner, c: Content)
    ensures LoadGame(files, owner) == Ok(None) <==> Current !in files
    ensures LoadGame(files, owner) == Ok(Some(c)) <==>
      PublishedFor(files, owner) && files[Current].game in files && files[files[Current].game] == c && c.Game?
    ensures LoadSdk(files, owner) == Some(c) <==>
      PublishedFor(files, owner) && files[Current].sdk in files && files[files[Current].sdk] == c
      && c.Sdk? && c.owner == owner
  {
  }

  /** Every snapshot stays as it is. */
  predicate SnapshotsKept(before: Files, after: Files) {
    forall n :: n in before && Snapshot(n) ==> n in after && after[n] == before[n]
  }

  // ----- Saving -----

  /** How writing a file goes: well, denied before anything is written, torn after a
      temporary file was made, or reported as failed after the file was in place. */
  datatype Fault = Smooth | Denied | Torn | Late

  datatype Faults = Faults(sdk: Fault, game: Fault, pointer: Fault)

  predicate Lands(f: Fault) {
    f.Smooth? || f.Late?
  }

  /** What the client says when the game file is written: its generation, and the
      credentials of that session unless it is blocked or anonymous. */
  datatype Reading = Reading(gen: Gen, game: Option<Content>)

  /** What the files are when saving got as far as a stage. */
  function SavedUpTo(files: Files, id: nat, owner: Owner, sdk: Content, game: Content, stage: Stage): Files {
    match stage
    case SdkStage => files[SdkFile(id) := sdk]
    case GameStage => files[SdkFile(id) := sdk][GameFile(id) := game]
    case PointerStage => files[SdkFile(id) := sdk][GameFile(id) := game][Current := PointerTo(owner, id)]
  }

  /** The last stage whose file a save puts in place; none if it fails before that. */
  function Reached(files: Files, id: nat, start: Gen, saving: Reading, checking: Gen, faults: Faults): Option<Stage> {
    if !Lands(faults.sdk) || SdkFile(id) in files then None
    else if saving.gen != start || saving.game.None? || !Lands(faults.game) || GameFile(id) in files then Some(SdkStage)
    else if checking != start || !Lands(faults.pointer) then Some(GameStage)
    else Some(PointerStage)
  }

  /** A save: the files it leaves, and whether it reports success. */
  function Saved(files: Files, owner: Owner, sdk: Content, id: nat, start: Gen, saving: Reading, checking: Gen,
                 faults: Faults): (Files, bool)
  {
    var stage := Reached(files, id, start, saving, checking, faults);
    if stage.None? then (files, false)
    else if stage == Some(SdkStage) then (files[SdkFile(id) := sdk], false)
    else
      (SavedUpTo(files, id, owner, sdk, saving.game.value, stage.value),
       stage == Some(PointerStage) && faults.pointer.Smooth?)
  }

  class StateDir {
    var files: Files

    constructor ()
      ensures files == map[]
    {
      files := map[];
    }

    /** Writes a temporary file and renames it to an unused name. */
    method Create(name: Name, content: Content, t: nat, fault: Fault) returns (ok: bool)
      requires Temp(t) !in files && name != Temp(t)
      modifies this
      ensures ok == (Lands(fault) && name !in old(files))
      ensures files == if ok then old(files)[name := content] else old(files)
    {
      if fault.Denied? {
        return false;
      }
      ghost var before := files;
      files := files[Temp(t) := Partial];
      if fault.Torn? {
        files := files - {Temp(t)};
        assert files == before;
        return false;
      }
      files := files[Temp(t) := content];
      ok := name !in files;
      files := files - {Temp(t)};
      assert files == before;
      if ok {
        files := files[name := content];
      }
    }

    /** Like creating, but over what is there; it can fail after the rename. */
    method Publish(content: Content, t: nat, fault: Fault) returns (ok: bool)
      requires Temp(t) !in files
      modifies this
      ensures files == if Lands(fault) then old(files)[Current := content] else old(files)
      ensures ok == fault.Smooth?
    {
      if fault.Denied? {
        return false;
      }
      ghost var before := files;
      files := files[Temp(t) := Partial];
      if fault.Torn? {
        files := files - {Temp(t)};
        assert files == before;
        return false;
      }
      files := files[Temp(t) := content];
      files := files - {Temp(t)};
      assert files == before;
      files := files[Current := content];
      ok := fault.Smooth?;
    }

    method Save(owner: Owner, sdk: Content, id: nat, t: nat, start: Gen, saving: Reading, checking: Gen, faults: Faults)
      returns (ok: bool)
      requires Temp(t) !in files
      modifies this
      ensures (files, ok) == Saved(old(files), owner, sdk, id, start, saving, checking, faults)
      ensures SnapshotsKept(old(files), files) && Temp(t) !in files
      ensures ok ==> start == saving.gen == checking && saving.game.Some?
    {
      ok := Create(SdkFile(id), sdk, t, faults.sdk);
      if !ok {
        return;
      }
      if saving.gen != start || saving.game.None? {
        return false;
      }
      ok := Create(GameFile(id), saving.game.value, t, faults.game);
      if !ok {
        return;
      }
      if checking != start {
        return false;
      }
      ok := Publish(PointerTo(owner, id), t, faults.pointer);
    }
  }

  /** A save that succeeded is what is loaded from then on, by its owner only. */
  lemma SavedIsLoaded(files: Files, id: nat, owner: Owner, sdk: Content, game: Content, reader: Owner)
    requires sdk.Sdk? && game.Game?
    ensures LoadGame(SavedUpTo(files, id, owner, sdk, game, PointerStage), reader) ==
      if reader == owner then Ok(Some(game)) else Err(())
    ensures sdk.owner == owner ==> LoadSdk(SavedUpTo(files, id, owner, sdk, game, PointerStage), owner) == Some(sdk)
  {
  }

  /** A save succeeds exactly if its two file names are unused, the session stays the one
      it started from and has credentials to save, every file can be written, and nothing
      goes wrong after the pointer was replaced. */
  lemma SaveSucceeds(files: Files, owner: Owner, sdk: Content, id: nat, start: Gen, saving: Reading, checking: Gen,
                     faults: Faults)
    ensures Saved(files, owner, sdk, id, start, saving, checking, faults).1 <==>
      && SdkFile(id) !in files && GameFile(id) !in files
      && saving.gen == start == checking && saving.game.Some?
      && faults.sdk in {Smooth, Late} && faults.game in {Smooth, Late} && faults.pointer == Smooth
  {
  }

  /** What could be loaded still can while snapshots are kept and the pointer is not replaced. */
  lemma StillLoaded(before: Files, after: Files, owner: Owner)
    requires SnapshotsKept(before, after)
    requires Current in before && Current in after && after[Current] == before[Current]
    requires LoadGame(before, owner).Ok?
    ensures LoadGame(after, owner) == LoadGame(before, owner)
  {
    assert Snapshot(before[Current].game);
  }

  /** After a save, what could be loaded before still is, unless the whole new snapshot
      is loaded; and a save that reports success is loaded. Snapshots are kept in any case. */
  lemma SaveIsAllOrNothing(files: Files, owner: Owner, sdk: Content, id: nat, start: Gen, saving: Reading,
                           checking: Gen, faults: Faults)
    requires sdk.Sdk? && (saving.game.Some? ==> saving.game.value.Game?)
    ensures var (after, ok) := Saved(files, owner, sdk, id, start, saving, checking, faults);
            && SnapshotsKept(files, after)
            && (ok ==> saving.game.Some? && LoadGame(after, owner) == Ok(saving.game))
            && (LoadGame(files, owner).Ok? ==>
                  || LoadGame(after, owner) == LoadGame(files, owner)
                  || (saving.game.Some? && saving.gen == start == checking
                      && LoadGame(after, owner) == Ok(saving.game)))
  {
    var (after, ok) := Saved(files, owner, sdk, id, start, saving, checking, faults);
    if Reached(files, id, start, saving, checking, faults) == Some(PointerStage) {
      SavedIsLoaded(files, id, owner, sdk, saving.game.value, owner);
    } else if LoadGame(files, owner).Ok? && Current in files {
      StillLoaded(files, after, owner);
    }
  }
}
