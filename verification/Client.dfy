/** Sessions and the sections that change them (client/src/lib.rs, auth.rs, jp.rs,
    versions.rs, session.rs): what is a valid configuration, when a call is refused,
    what an upstream error blocks, and which session an answer installs. */
module Client {
  import opened Basics
  import opened Errors
  import opened Versions

  // ----- configuration and credentials -----

  datatype Region = Jp | International(name: string)

  /** `origin` texts are compared after parsing; `Parse` abstracts the URL parser, None
      for anything but a bare https origin. */
  type Parse = string -> Option<string>

  datatype Config = Config(
    region: Region, origin: string, allowed: seq<string>, platform: string, client: string,
    master: Option<string>, resource: Option<string>)

  datatype Credentials = Credentials(player: string, secret: string, device: Option<string>, bid: Option<string>)

  predicate Sendable(o: Option<string>) {
    o.Some? ==> HeaderText(o.value)
  }

  /** Metadata with these credentials can be built. */
  predicate Presentable(c: Config, credentials: Option<Credentials>) {
    && HeaderText(c.platform) && HeaderText(c.client)
    && (credentials.Some? ==>
          var a := credentials.value;
          && a.player != "" && a.secret != "" && HeaderText(a.player) && HeaderText(a.secret)
          && Sendable(a.device) && Sendable(c.master)
          && if c.region.Jp? then a.bid.None? else Sendable(a.bid) && Sendable(c.resource))
  }

  // ----- metadata -----

  datatype Header =
    | RequestId | Platform | ClientVersion | PlayerId | PlayerCredential | DeviceId | PlayerBid
    | MasterVersion | ResourceVersion

  /** The value of a header, if it is sent at all. */
  function HeaderOf(c: Config, credentials: Option<Credentials>, request: string, h: Header): Option<string> {
    match h
    case RequestId => Some(request)
    case Platform => Some(c.platform)
    case ClientVersion => Some(c.client)
    case PlayerId => if credentials.Some? then Some(credentials.value.player) else None
    case PlayerCredential => if credentials.Some? then Some(credentials.value.secret) else None
    case DeviceId => if credentials.Some? then credentials.value.device else None
    case PlayerBid => if credentials.Some? && !c.region.Jp? then credentials.value.bid else None
    case MasterVersion => if credentials.Some? then c.master else None
    case ResourceVersion => if credentials.Some? && !c.region.Jp? then c.resource else None
  }

  /** A configuration and credentials can be presented exactly if every header that is sent
      is text that metadata can hold, the player and the secret are not empty, and JP
      credentials have no bid. */
  lemma PresentableHeaders(c: Config, credentials: Option<Credentials>, request: string)
    requires HeaderText(request)
    ensures Presentable(c, credentials) <==>
      && (forall h :: Sendable(HeaderOf(c, credentials, request, h)))
      && (credentials.Some? ==>
            && credentials.value.player != "" && credentials.value.secret != ""
            && !(c.region.Jp? && credentials.value.bid.Some?))
  {
    if forall h :: Sendable(HeaderOf(c, credentials, request, h)) {
      assert Sendable(HeaderOf(c, credentials, request, Platform));
      assert Sendable(HeaderOf(c, credentials, request, ClientVersion));
      assert Sendable(HeaderOf(c, credentials, request, PlayerId));
      assert Sendable(HeaderOf(c, credentials, request, PlayerCredential));
      assert Sendable(HeaderOf(c, credentials, request, DeviceId));
      assert Sendable(HeaderOf(c, credentials, request, PlayerBid));
      assert Sendable(HeaderOf(c, credentials, request, MasterVersion));
      assert Sendable(HeaderOf(c, credentials, request, ResourceVersion));
    }
  }

  /** Anonymous calls carry nothing of the player, and JP calls neither bid nor resource. */
  lemma HeadersOfRegion(c: Config, credentials: Option<Credentials>, request: string, h: Header)
    ensures HeaderOf(c, None, request, h).Some? <==> h in {RequestId, Platform, ClientVersion}
    ensures c.region.Jp? && HeaderOf(c, credentials, request, h).Some? ==> h !in {PlayerBid, ResourceVersion}
  {
  }

  predicate ValidConfig(parse: Parse, c: Config) {
    && parse(c.origin).Some?
    && c.region != International("") && c.platform != "" && c.client != ""
    && (exists k :: 0 <= k < |c.allowed| && parse(c.allowed[k]) == parse(c.origin))
    && (if c.region.Jp? then
          && c.platform == "android"
          && (c.resource.Some? ==> c.master.Some?)
          && (c.master.Some? ==> ValidMaster(c.master.value))
        else c.master.Some? == c.resource.Some?)
    && Presentable(c, None)
  }

  // ----- sessions -----

  datatype Session = Session(
    config: Config,
    credentials: Option<Credentials>,
    blocked: Option<Kind>,
    mismatch: bool,
    override: bool)

  /** A session with these parts and no observations. */
  function Fresh(config: Config, credentials: Option<Credentials>, override: bool): Session {
    Session(config, credentials, None, false, override)
  }

  datatype Call =
    | Query(anonymous: bool)
    | PreLogin | Login | Register
    | Discover(candidate: Option<string>)   // refresh, or adoption of a candidate version

  predicate Anonymous(m: Call) {
    m.Query? ==> m.anonymous
  }

  predicate LoginCall(m: Call) {
    m.PreLogin? || m.Login?
  }

  predicate Lasting(blocked: Option<Kind>) {
    blocked == Some(Version) || blocked == Some(DeviceConflict)
  }

  /** Local refusal in the serial slot: authenticated calls on any block, logins and
      registrations on a lasting one. */
  predicate Refuses(blocked: Option<Kind>, m: Call) {
    blocked.Some? && (!Anonymous(m) || ((LoginCall(m) || m.Register?) && Lasting(blocked)))
  }

  /** Which errors of which calls are recorded as a block. */
  predicate Blocks(m: Call, e: ClientError) {
    && (!Anonymous(m) || LoginCall(m))
    && (e.kind == Authentication || e.kind == Version || e.kind == DeviceConflict)
  }

  function Recorded(s: Session, m: Call, e: ClientError): Session {
    if Blocks(m, e) && !Lasting(s.blocked) then s.(blocked := Some(e.kind), mismatch := MasterMismatch(e)) else s
  }

  predicate SendsOverride(s: Session, m: Call) {
    s.config.region.Jp? && !Anonymous(m) && s.override
  }

  // ----- admission of the calls -----

  function Presented(c: Config, m: Call): Config {
    if m.Discover? && m.candidate.Some? then c.(client := m.candidate.value) else c
  }

  /** What each call checks before it is queued. */
  predicate Admissible(s: Session, m: Call) {
    match m
    case Query(anonymous) =>
      if anonymous then Presentable(s.config, None) else s.credentials.Some? && Presentable(s.config, s.credentials)
    case PreLogin => s.config.region.International?
    case Login => s.config.region.International?
    case Register => s.config.region.Jp? && s.credentials.None?
    case Discover(candidate) =>
      (candidate.Some? ==> PatchVersion(candidate.value).Some?) && Presentable(Presented(s.config, m), None)
  }

  // ----- answers -----

  datatype Answer =
    | Plain
    | LoggedIn(credentials: Credentials)
    | Registered(credentials: Credentials, saved: bool)
    | Found(version: string, resource: Option<string>)

  /** For JP the resource is the selected asset version, if any; elsewhere it is part of
      the answer. */
  predicate AcceptableVersions(c: Config, version: string, resource: Option<string>) {
    if c.region.Jp? then ValidMaster(version) && (resource.Some? ==> Valid(resource.value))
    else Valid(version) && resource.Some? && Valid(resource.value)
  }

  function BlockAfterUpdate(s: Session, clientChanged: bool): Option<Kind> {
    if s.blocked == Some(Version) && (clientChanged || s.mismatch) then None else s.blocked
  }

  /** The session an accepted answer installs over s; None when it changes nothing. */
  function Installed(s: Session, m: Call, a: Answer): Option<Session> {
    match (m, a)
    case (Login, LoggedIn(credentials)) =>
      if Presentable(s.config, Some(credentials)) then Some(Fresh(s.config, Some(credentials), false)) else None
    case (Register, Registered(credentials, saved)) =>
      if saved && Presentable(s.config, Some(credentials)) then Some(Fresh(s.config, Some(credentials), true)) else None
    case (Discover(_), Found(version, resource)) =>
      var p := Presented(s.config, m);
      if !AcceptableVersions(s.config, version, resource) then None
      else if s.config.master == Some(version) && s.config.resource == resource && s.config.client == p.client then None
      else Some(Session(p.(master := Some(version), resource := resource), s.credentials,
                        BlockAfterUpdate(s, s.config.client != p.client), false, s.override))
    case _ => None
  }

  // ----- what installs preserve -----

  predicate Sound(parse: Parse, s: Session) {
    && ValidConfig(parse, s.config)
    && Presentable(s.config, s.credentials)
    && (s.mismatch ==> s.blocked == Some(Version))
    && (s.override ==> s.config.region.Jp?)
  }

  /** An update keeps identity, transport scope and the override flag; it lifts only a
      version block, and only for a master mismatch or a new client version. */
  predicate KeepsIdentity(s: Session, t: Session) {
    && t.credentials == s.credentials && t.override == s.override
    && t.config.region == s.config.region && t.config.origin == s.config.origin
    && t.config.allowed == s.config.allowed && t.config.platform == s.config.platform
    && (t.blocked == s.blocked
        || (t.blocked.None? && s.blocked == Some(Version) && (s.mismatch || t.config.client != s.config.client)))
  }

  lemma InstallKeepsSound(parse: Parse, s: Session, m: Call, a: Answer)
    requires Sound(parse, s) && Admissible(s, m) && Installed(s, m, a).Some?
    ensures Sound(parse, Installed(s, m, a).value)
    ensures m.Discover? ==> KeepsIdentity(s, Installed(s, m, a).value)
    ensures m.Discover? ==> !Installed(s, m, a).value.mismatch
  {
    if m.Discover? {
      var version, resource := a.version, a.resource;
      if s.config.region.Jp? {
        MasterIsHeaderText(version);
      } else {
        ValidIsHeaderText(version);
        ValidIsHeaderText(resource.value);
      }
      if m.candidate.Some? {
        PatchVersionIsHeaderText(m.candidate.value);
      }
    }
  }

  /** A recorded error keeps the session sound, and a lasting block never changes. */
  lemma RecordKeepsSound(parse: Parse, s: Session, m: Call, e: ClientError)
    requires Sound(parse, s) && Constructed(e)
    ensures Sound(parse, Recorded(s, m, e))
    ensures Lasting(s.blocked) ==> Recorded(s, m, e) == s
    ensures s.blocked.Some? ==> Recorded(s, m, e).blocked.Some?
  {
    VersionRefusals(e);
  }

  // ----- which session an answer installs -----

  /** A login or registration installs the credentials it was given, on the same
      configuration and without observations, exactly if they can be presented; a
      registration only once they have been saved. */
  lemma LoginInstalls(s: Session, m: Call, a: Answer)
    requires m.Login? || m.Register?
    ensures Installed(s, m, a).Some? <==>
      && (if m.Login? then a.LoggedIn? else a.Registered? && a.saved)
      && Presentable(s.config, Some(a.credentials))
    ensures Installed(s, m, a).Some? ==>
      var t := Installed(s, m, a).value;
      && t.config == s.config && t.credentials == Some(a.credentials)
      && t.blocked.None? && !t.mismatch && (t.override <==> m.Register?)
  {
  }

  /** A JP check must find a valid master version and may select an asset version; any other
      must find two valid versions. */
  predicate Acceptable(region: Region, version: string, resource: Option<string>) {
    match region
    case Jp => ValidMaster(version) && (resource.None? || Valid(resource.value))
    case International(_) => Valid(version) && resource.Some? && Valid(resource.value)
  }

  /** The versions that a check finds differ from those of the session, as it was presented. */
  predicate Differs(c: Config, candidate: Option<string>, version: string, resource: Option<string>) {
    c.master != Some(version) || c.resource != resource || (candidate.Some? && candidate.value != c.client)
  }

  /** A check installs the versions it found exactly if they are acceptable and new, and
      with them the candidate it presented. */
  lemma CheckInstalls(s: Session, candidate: Option<string>, a: Answer)
    ensures Installed(s, Discover(candidate), a).Some? <==>
      && a.Found? && Acceptable(s.config.region, a.version, a.resource)
      && Differs(s.config, candidate, a.version, a.resource)
    ensures Installed(s, Discover(candidate), a).Some? ==>
      var t := Installed(s, Discover(candidate), a).value;
      && t.config.master == Some(a.version) && t.config.resource == a.resource
      && t.config.client == (if candidate.Some? then candidate.value else s.config.client)
      && KeepsIdentity(s, t) && !t.mismatch
      && (t.blocked.None? <==>
            s.blocked.None? || (s.blocked == Some(Version) && (s.mismatch || t.config.client != s.config.client)))
  {
  }

  /** Which errors block a session, and when the block is put down to the master version. */
  lemma ErrorsBlock(s: Session, m: Call, e: ClientError)
    requires s.blocked != Some(Version) && s.blocked != Some(DeviceConflict)
    ensures Recorded(s, m, e) ==
      if e.kind in {Authentication, Version, DeviceConflict} && m in {Query(false), PreLogin, Login}
      then s.(blocked := Some(e.kind), mismatch := MasterMismatch(e)) else s
  {
  }

  // ----- the fields that the sections update in place -----

  class SessionCell {
    const config: Config
    const credentials: Option<Credentials>
    var blocked: Option<Kind>
    var mismatch: bool
    var override: bool
    var cancelled: bool

    function Abs(): Session
      reads this
    {
      Session(config, credentials, blocked, mismatch, override)
    }

    constructor (s: Session)
      ensures Abs() == s && !cancelled
    {
      config, credentials, blocked, mismatch, override := s.config, s.credentials, s.blocked, s.mismatch, s.override;
      cancelled := false;
    }

    method Record(m: Call, e: ClientError)
      modifies this`blocked, this`mismatch
      ensures Abs() == Recorded(old(Abs()), m, e)
    {
      if (!Anonymous(m) || LoginCall(m))
         && (e.kind == Authentication || e.kind == Version || e.kind == DeviceConflict) {
        if blocked != Some(Version) && blocked != Some(DeviceConflict) {
          mismatch := MasterMismatch(e);
          blocked := Some(e.kind);
        }
      }
    }

    method Settle(overrideSent: bool)
      modifies this`override
      ensures Abs() == old(Abs()).(override := old(override) && !overrideSent)
    {
      if overrideSent { override := false; }
    }
  }

  /** The client's pointer to its current session. */
  class ClientCell {
    var session: SessionCell
    var generation: Gen

    constructor (s: SessionCell, g: Gen)
      ensures session == s && generation == g
    {
      session, generation := s, g;
    }

    /** The final part of a call: compare the generation, then swap the session and
        cancel the old one. `next` is the new session's generation. */
    method Finish(from: Gen, m: Call, a: Answer, cancelled: bool, next: Gen) returns (installed: bool)
      modifies this, session
      ensures installed <==> old(generation) == from && !cancelled && Installed(old(session.Abs()), m, a).Some?
      ensures old(session).cancelled == (old(session.cancelled) || installed)
      ensures old(session).Abs() == old(session.Abs())
      ensures if installed then
                fresh(session) && generation == next && !session.cancelled
                && session.Abs() == Installed(old(session.Abs()), m, a).value
              else session == old(session) && generation == old(generation)
    {
      if generation != from || cancelled { return false; }
      var replacement := Installed(session.Abs(), m, a);
      if replacement.None? { return false; }
      var new' := new SessionCell(replacement.value);
      session.cancelled := true;
      session, generation := new', next;
      installed := true;
    }
  }
}
