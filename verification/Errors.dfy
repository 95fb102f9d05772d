/** The client's error type and the classification of upstream metadata
    (client/src/error.rs). Every block and retry rule depends on it. */
module Errors {
  import opened Basics

  datatype Kind =
    | InvalidConfig | InvalidRequest | AuthenticationRequired | Authentication
    | Maintenance | Version | DeviceConflict | Business | Transport | Protocol
    | Timeout | Cancelled | QueueFull | SessionChanged

  /** The gRPC status codes that the classification tells apart. */
  datatype Status = StatusOk | DeadlineExceeded | OtherStatus

  /** Values of the x-sirius-error-code header: the six the client knows
      (UNDER_MAINTENANCE, TOKEN_ILLEGAL, TOKEN_MISSING, CLIENT_UPDATE_REQUIRED,
      MASTER_VERSION_MISMATCH, CONCURRENT_DEVICE) and every other text. */
  datatype Code =
    | UNDER_MAINTENANCE | TOKEN_ILLEGAL | TOKEN_MISSING | CLIENT_UPDATE_REQUIRED
    | MASTER_VERSION_MISMATCH | CONCURRENT_DEVICE | Unknown(text: string)

  datatype ClientError = ClientError(kind: Kind, initial: seq<Code>, trailing: seq<Code>)

  function Last(s: seq<Code>): Option<Code> {
    if s == [] then None else Some(s[|s| - 1])
  }

  /** The code that decides: the last trailing one, otherwise the last initial one. */
  function Deciding(initial: seq<Code>, trailing: seq<Code>): Option<Code> {
    if trailing != [] then Last(trailing) else Last(initial)
  }

  function New(kind: Kind): ClientError {
    ClientError(kind, [], [])
  }

  /** Header values that are not readable text are skipped. */
  function Readable(headers: seq<Option<Code>>): seq<Code> {
    if headers == [] then [] else Text(headers[0]) + Readable(headers[1..])
  }

  function Text(header: Option<Code>): seq<Code> {
    if header.Some? then [header.value] else []
  }

  function Classify(status: Status, last: Option<Code>): Kind {
    match last
    case Some(UNDER_MAINTENANCE) => Maintenance
    case Some(TOKEN_ILLEGAL) => Authentication
    case Some(TOKEN_MISSING) => Authentication
    case Some(CLIENT_UPDATE_REQUIRED) => Version
    case Some(MASTER_VERSION_MISMATCH) => Version
    case Some(CONCURRENT_DEVICE) => DeviceConflict
    case Some(Unknown(_)) => Business
    case None => if status == DeadlineExceeded then Timeout else Transport
  }

  function FromMetadata(status: Status, initial: seq<Option<Code>>, trailing: seq<Option<Code>>): Option<ClientError> {
    var i, t := Readable(initial), Readable(trailing);
    if status == StatusOk && Deciding(i, t).None? then None
    else Some(ClientError(Classify(status, Deciding(i, t)), i, t))
  }

  /** The only errors that exist: local ones without codes, and classified ones. */
  ghost predicate Constructed(e: ClientError) {
    || e == New(e.kind)
    || exists status, i, t :: FromMetadata(status, i, t) == Some(e)
  }

  predicate ClientUpdateRequired(e: ClientError) {
    e.kind == Version && Deciding(e.initial, e.trailing) == Some(CLIENT_UPDATE_REQUIRED)
  }

  predicate MasterMismatch(e: ClientError) {
    Deciding(e.initial, e.trailing) == Some(MASTER_VERSION_MISMATCH)
  }

  lemma ClassifiedByCode(status: Status, initial: seq<Option<Code>>, trailing: seq<Option<Code>>)
    requires FromMetadata(status, initial, trailing).Some?
    ensures var e := FromMetadata(status, initial, trailing).value;
            e.kind == Classify(status, Deciding(e.initial, e.trailing))
  {
  }

  lemma CodeIdentifies(e: ClientError)
    requires e == New(e.kind) || exists status :: e.kind == Classify(status, Deciding(e.initial, e.trailing))
    ensures ClientUpdateRequired(e) <==> Deciding(e.initial, e.trailing) == Some(CLIENT_UPDATE_REQUIRED)
    ensures MasterMismatch(e) ==> e.kind == Version
    ensures (e.initial != [] || e.trailing != []) && e.kind == Version
            ==> MasterMismatch(e) || ClientUpdateRequired(e)
  {
  }

  /** The code alone identifies the two version refusals; they exclude each other,
      and both are version errors. */
  lemma VersionRefusals(e: ClientError)
    requires Constructed(e)
    ensures ClientUpdateRequired(e) <==> Deciding(e.initial, e.trailing) == Some(CLIENT_UPDATE_REQUIRED)
    ensures MasterMismatch(e) ==> e.kind == Version
    ensures !(MasterMismatch(e) && ClientUpdateRequired(e))
    ensures (e.initial != [] || e.trailing != []) && e.kind == Version
            ==> MasterMismatch(e) || ClientUpdateRequired(e)
  {
    if e != New(e.kind) {
      var status, i, t :| FromMetadata(status, i, t) == Some(e);
      ClassifiedByCode(status, i, t);
    }
    CodeIdentifies(e);
  }

  lemma Associative(a: seq<Code>, b: seq<Code>, c: seq<Code>)
    ensures (a + b) + c == a + (b + c)
  {
  }

  lemma {:induction false} ReadableAppend(a: seq<Option<Code>>, b: seq<Option<Code>>)
    ensures Readable(a + b) == Readable(a) + Readable(b)
  {
    if a == [] {
      assert a + b == b;
    } else {
      ReadableAppend(a[1..], b);
      assert (a + b)[0] == a[0] && (a + b)[1..] == a[1..] + b;
      Associative(Text(a[0]), Readable(a[1..]), Readable(b));
    }
  }

  /** A readable trailing code settles the kind: initial metadata, earlier trailing
      codes, unreadable values after it and the status no longer matter. */
  lemma LastTrailingCodeDecides(status: Status, initial: seq<Option<Code>>, before: seq<Option<Code>>,
                                code: Code, after: seq<Option<Code>>)
    requires forall k :: 0 <= k < |after| ==> after[k].None?
    ensures var e := FromMetadata(status, initial, before + [Some(code)] + after);
            e.Some? && e.value.kind == Classify(StatusOk, Some(code))
  {
    ReadableAppend(before + [Some(code)], after);
    ReadableAppend(before, [Some(code)]);
    NothingReadable(after);
    assert Readable([Some(code)]) == [code];
  }

  lemma {:induction false} NothingReadable(headers: seq<Option<Code>>)
    requires forall k :: 0 <= k < |headers| ==> headers[k].None?
    ensures Readable(headers) == []
  {
    if headers != [] {
      NothingReadable(headers[1..]);
    }
  }

  /** Without a readable code the status decides: no error for OK, a timeout for an
      exceeded deadline, a transport error for any other. */
  lemma StatusDecides(status: Status, initial: seq<Option<Code>>, trailing: seq<Option<Code>>)
    requires forall k :: 0 <= k < |initial| ==> initial[k].None?
    requires forall k :: 0 <= k < |trailing| ==> trailing[k].None?
    ensures FromMetadata(status, initial, trailing) ==
      if status == StatusOk then None else Some(New(if status == DeadlineExceeded then Timeout else Transport))
  {
    NothingReadable(initial);
    NothingReadable(trailing);
  }

  lemma LastReadable(before: seq<Option<Code>>, code: Code, after: seq<Option<Code>>)
    requires forall k :: 0 <= k < |after| ==> after[k].None?
    ensures Last(Readable(before + [Some(code)] + after)) == Some(code)
  {
    ReadableAppend(before + [Some(code)], after);
    ReadableAppend(before, [Some(code)]);
    NothingReadable(after);
    assert Readable([Some(code)]) == [code];
  }

  /** The kind of a code, and of no code. */
  predicate Means(kind: Kind, code: Option<Code>, status: Status) {
    && (kind == Maintenance <==> code == Some(UNDER_MAINTENANCE))
    && (kind == Authentication <==> code == Some(TOKEN_ILLEGAL) || code == Some(TOKEN_MISSING))
    && (kind == Version <==> code == Some(CLIENT_UPDATE_REQUIRED) || code == Some(MASTER_VERSION_MISMATCH))
    && (kind == DeviceConflict <==> code == Some(CONCURRENT_DEVICE))
    && (kind == Business <==> code.Some? && code.value.Unknown?)
    && (kind == Timeout <==> code.None? && status == DeadlineExceeded)
    && (kind == Transport <==> code.None? && status != DeadlineExceeded)
  }

  /** The last readable trailing code, if there is one, makes the error and its kind. */
  lemma TrailingCodeMeans(status: Status, initial: seq<Option<Code>>, before: seq<Option<Code>>,
                          code: Code, after: seq<Option<Code>>)
    requires forall k :: 0 <= k < |after| ==> after[k].None?
    ensures var e := FromMetadata(status, initial, before + [Some(code)] + after);
            && e.Some? && Means(e.value.kind, Some(code), status)
            && Deciding(e.value.initial, e.value.trailing) == Some(code)
  {
    LastReadable(before, code, after);
  }

  /** Without a readable trailing code the last readable initial one does. */
  lemma InitialCodeMeans(status: Status, before: seq<Option<Code>>, code: Code, after: seq<Option<Code>>,
                         trailing: seq<Option<Code>>)
    requires forall k :: 0 <= k < |after| ==> after[k].None?
    requires forall k :: 0 <= k < |trailing| ==> trailing[k].None?
    ensures var e := FromMetadata(status, before + [Some(code)] + after, trailing);
            && e.Some? && Means(e.value.kind, Some(code), status)
            && Deciding(e.value.initial, e.value.trailing) == Some(code)
  {
    LastReadable(before, code, after);
    NothingReadable(trailing);
  }
}
