/** Content sharing on the call stage: who presents, which share is primary, the tiles
    of the stage and the one in the spotlight. */
module ContentStage {
  import opened Wrappers

  datatype ContentType = ScreenShare | WorldCamera | CompositeCamera
  datatype CameraMode = Selfie | World | Composite | Screen
  datatype ContentMode = Independent | Legacy

  datatype ParticipantContent = ParticipantContent(active: bool, wire: string)

  datatype LocalParticipant =
    LocalParticipant(cid: string, isScreenSharing: bool, cameraMode: CameraMode, content: Option<ParticipantContent>)

  datatype RemoteParticipant =
    RemoteParticipant(cid: string, content: Option<ParticipantContent>, supportsIndependent: bool)

  datatype ResolvedContent = ResolvedContent(
    ownerCid: string, isLocal: bool, kind: ContentType, mode: ContentMode,
    hasMedia: bool, loading: bool, waitingForParticipants: bool)

  /** What one render of the call starts from; `order` has the latest remote sharer last. */
  datatype Input = Input(
    local: Option<LocalParticipant>,
    remotes: seq<RemoteParticipant>,
    independentEnabled: bool,
    receivesVideo: bool,
    remoteHasMedia: string -> bool,
    localHasMedia: bool,
    order: seq<string>)

  datatype Scene = Scene(
    primary: Option<ResolvedContent>, local: Option<ResolvedContent>, remotes: seq<ResolvedContent>)

  function FromWire(wire: string): ContentType {
    if wire == "worldCamera" then WorldCamera else if wire == "compositeCamera" then CompositeCamera else ScreenShare
  }

  predicate Presents(content: Option<ParticipantContent>) {
    content.Some? && content.value.active
  }

  predicate PresentsScreen(content: Option<ParticipantContent>) {
    Presents(content) && FromWire(content.value.wire) == ScreenShare
  }

  // ----- resolution -----------------------------------------------------------------------

  function LocalType(l: LocalParticipant): ContentType {
    match l.content
    case Some(c) => FromWire(c.wire)
    case None => match l.cameraMode case World => WorldCamera case Composite => CompositeCamera case _ => ScreenShare
  }

  function ResolveLocal(input: Input): Option<ResolvedContent> {
    if input.local.None? || !input.receivesVideo then None
    else
      var l := input.local.value;
      if !(Presents(l.content) || l.isScreenSharing || l.cameraMode.World? || l.cameraMode.Composite?) then None
      else if input.independentEnabled && PresentsScreen(l.content) then
        Some(ResolvedContent(l.cid, true, LocalType(l), Independent, input.localHasMedia, !input.localHasMedia,
                             input.remotes == []))
      else Some(ResolvedContent(l.cid, true, LocalType(l), Legacy, true, false, false))
  }

  /** The content of one remote participant, if it presents any. */
  function RemoteContent(input: Input, r: RemoteParticipant): seq<ResolvedContent> {
    if !Presents(r.content) then []
    else
      var kind := FromWire(r.content.value.wire);
      if input.independentEnabled && r.supportsIndependent && kind == ScreenShare then
        var hasMedia := input.remoteHasMedia(r.cid);
        [ResolvedContent(r.cid, false, kind, Independent, hasMedia, !hasMedia, false)]
      else [ResolvedContent(r.cid, false, kind, Legacy, true, false, false)]
  }

  function RemoteContents(input: Input, remotes: seq<RemoteParticipant>): seq<ResolvedContent> {
    if remotes == [] then []
    else RemoteContents(input, remotes[..|remotes| - 1]) + RemoteContent(input, remotes[|remotes| - 1])
  }

  method ResolveRemoteContents(input: Input) returns (resolved: seq<ResolvedContent>)
    ensures resolved == if input.receivesVideo then RemoteContents(input, input.remotes) else []
  {
    resolved := [];
    if !input.receivesVideo {
      return;
    }
    for i := 0 to |input.remotes|
      invariant resolved == RemoteContents(input, input.remotes[..i])
    {
      assert input.remotes[..i + 1][..i] == input.remotes[..i];
      var r := input.remotes[i];
      if !Presents(r.content) {
        continue;
      }
      var kind := FromWire(r.content.value.wire);
      if input.independentEnabled && r.supportsIndependent && kind == ScreenShare {
        var hasMedia := input.remoteHasMedia(r.cid);
        resolved := resolved + [ResolvedContent(r.cid, false, kind, Independent, hasMedia, !hasMedia, false)];
      } else {
        resolved := resolved + [ResolvedContent(r.cid, false, kind, Legacy, true, false, false)];
      }
    }
    assert input.remotes[..|input.remotes|] == input.remotes;
  }

  /** `c` is what is shown of the presenting remote `r`: its screen on a track of its own
      where both sides know such tracks, which may still be on its way; its only video
      otherwise. */
  predicate ShownOf(input: Input, r: RemoteParticipant, c: ResolvedContent) {
    && Presents(r.content) && c.ownerCid == r.cid && !c.isLocal && !c.waitingForParticipants
    && (c.kind == WorldCamera <==> r.content.value.wire == "worldCamera")
    && (c.kind == CompositeCamera <==> r.content.value.wire == "compositeCamera")
    && (c.mode == Independent <==> input.independentEnabled && r.supportsIndependent && c.kind == ScreenShare)
    && (c.loading <==> c.mode == Independent && !input.remoteHasMedia(r.cid))
    && c.hasMedia != c.loading
  }

  ghost predicate Increasing(picks: seq<nat>) {
    forall i, j :: 0 <= i < j < |picks| ==> picks[i] < picks[j]
  }

  /** The contents are those of the presenting remotes, one each, in their order. */
  lemma {:induction false} RemotesShown(input: Input, remotes: seq<RemoteParticipant>) returns (of: seq<nat>)
    ensures |of| == |RemoteContents(input, remotes)| && Increasing(of)
    ensures forall i :: 0 <= i < |of| ==>
              of[i] < |remotes| && ShownOf(input, remotes[of[i]], RemoteContents(input, remotes)[i])
    ensures forall k :: 0 <= k < |remotes| && Presents(remotes[k].content) ==> k in of
  {
    of := [];
    if remotes != [] {
      var n := |remotes| - 1;
      of := RemotesShown(input, remotes[..n]);
      if Presents(remotes[n].content) {
        of := of + [n];
      }
    }
  }

  /** What the local participant presents: nothing for an audio-only receiver, its screen
      on a track of its own only by its precise content state and with the flag on. */
  lemma LocalShown(input: Input)
    ensures
      ResolveLocal(input).Some? <==>
      && input.receivesVideo && input.local.Some?
      && var l := input.local.value;
         (l.content.Some? && l.content.value.active) || l.isScreenSharing || l.cameraMode in {World, Composite}
    ensures
      ResolveLocal(input).Some? ==>
        var l, c := input.local.value, ResolveLocal(input).value;
        var wire := if l.content.Some? then l.content.value.wire
                    else if l.cameraMode == World then "worldCamera"
                    else if l.cameraMode == Composite then "compositeCamera" else "screenShare";
        && c.ownerCid == l.cid && c.isLocal
        && (c.kind == WorldCamera <==> wire == "worldCamera")
        && (c.kind == CompositeCamera <==> wire == "compositeCamera")
        && (c.mode == Independent <==>
            input.independentEnabled && l.content.Some? && l.content.value.active && c.kind == ScreenShare)
        && (c.loading <==> c.mode == Independent && !input.localHasMedia) && c.hasMedia != c.loading
        && (c.waitingForParticipants <==> c.mode == Independent && input.remotes == [])
  {
    assert "worldCamera"[0] != "screenShare"[0] && "compositeCamera"[0] != "screenShare"[0];
    assert "worldCamera"[0] != "compositeCamera"[0];
  }

  // ----- the primary share ---------------------------------------------------------------------

  /** The first content of this owner. */
  function OwnedBy(contents: seq<ResolvedContent>, cid: string): Option<ResolvedContent> {
    if contents == [] then None
    else if contents[0].ownerCid == cid then Some(contents[0])
    else OwnedBy(contents[1..], cid)
  }

  /** The content whose owner is latest in the order. */
  function Latest(contents: seq<ResolvedContent>, order: seq<string>): Option<ResolvedContent> {
    if order == [] then None
    else if OwnedBy(contents, order[|order| - 1]).Some? then OwnedBy(contents, order[|order| - 1])
    else Latest(contents, order[..|order| - 1])
  }

  function Last(contents: seq<ResolvedContent>): Option<ResolvedContent> {
    if contents == [] then None else Some(contents[|contents| - 1])
  }

  function LatestOrLast(contents: seq<ResolvedContent>, order: seq<string>): Option<ResolvedContent> {
    if Latest(contents, order).Some? then Latest(contents, order) else Last(contents)
  }

  function OnlyIndependent(contents: seq<ResolvedContent>): seq<ResolvedContent> {
    if contents == [] then []
    else (if contents[0].mode == Independent then [contents[0]] else []) + OnlyIndependent(contents[1..])
  }

  function Primary(
      local: Option<ResolvedContent>, remotes: seq<ResolvedContent>, order: seq<string>, enabled: bool)
    : Option<ResolvedContent>
  {
    if !enabled then if local.Some? then local else Last(remotes)
    else if OnlyIndependent(remotes) != [] then LatestOrLast(OnlyIndependent(remotes), order)
    else if local.Some? && local.value.mode == Independent then local
    else if remotes != [] then LatestOrLast(remotes, order)
    else local
  }

  /** The backward scan over the order. */
  method ScanOrder(contents: seq<ResolvedContent>, order: seq<string>) returns (found: Option<ResolvedContent>)
    ensures found == Latest(contents, order)
  {
    assert order[..|order|] == order;
    for i := |order| downto 0
      invariant Latest(contents, order) == Latest(contents, order[..i])
    {
      assert order[..i + 1][..i] == order[..i];
      found := OwnedBy(contents, order[i]);
      if found.Some? {
        return;
      }
    }
    found := None;
  }

  method PickPrimaryContent(local: Option<ResolvedContent>, remotes: seq<ResolvedContent>, order: seq<string>,
      enabled: bool)
    returns (primary: Option<ResolvedContent>)
    ensures primary == Primary(local, remotes, order, enabled)
  {
    if !enabled {
      return if local.Some? then local else Last(remotes);
    }
    var independent := OnlyIndependent(remotes);
    if independent != [] {
      primary := ScanOrder(independent, order);
      if primary.None? {
        primary := Last(independent);
      }
      return;
    }
    if local.Some? && local.value.mode == Independent {
      return local;
    }
    if remotes != [] {
      primary := ScanOrder(remotes, order);
      if primary.None? {
        primary := Last(remotes);
      }
      return;
    }
    return local;
  }

  /** Only the independent contents count, or all of them. */
  predicate Counts(c: ResolvedContent, independentOnly: bool) {
    independentOnly ==> c.mode == Independent
  }

  /** `k` counts, and its owner is the latest in the order of the owners that count; without
      any in the order, it is the last that counts. An owner that occurs twice counts once. */
  ghost predicate Foremost(remotes: seq<ResolvedContent>, order: seq<string>, independentOnly: bool, k: nat)
    requires k < |remotes|
  {
    && Counts(remotes[k], independentOnly)
    && ((&& (forall j :: 0 <= j < k && Counts(remotes[j], independentOnly) ==>
                           remotes[j].ownerCid != remotes[k].ownerCid)
         && exists i :: 0 <= i < |order| && order[i] == remotes[k].ownerCid
                        && forall m, j ::
                             i < m < |order| && 0 <= j < |remotes| && Counts(remotes[j], independentOnly) ==>
                               order[m] != remotes[j].ownerCid)
        || (&& (forall m, j :: 0 <= m < |order| && 0 <= j < |remotes| && Counts(remotes[j], independentOnly) ==>
                                 order[m] != remotes[j].ownerCid)
            && (forall j :: k < j < |remotes| ==> !Counts(remotes[j], independentOnly))))
  }

  /** Which share is primary. With the flag off the local content wins whenever there is
      any, and the last remote content is next. With it on, independent remote content
      comes first, then independent local content, then any remote content, each by the
      order of recency; any other local content is last. */
  lemma PrimaryIs(local: Option<ResolvedContent>, remotes: seq<ResolvedContent>, order: seq<string>, enabled: bool)
    ensures
      var primary := Primary(local, remotes, order, enabled);
      var independentOnly := exists k :: 0 <= k < |remotes| && remotes[k].mode == Independent;
      && (!enabled && local.Some? ==> primary == local)
      && (!enabled && local.None? && remotes != [] ==> primary == Some(remotes[|remotes| - 1]))
      && (remotes == [] ==> primary == local)
      && (enabled && !independentOnly && local.Some? && local.value.mode == Independent ==> primary == local)
      && (enabled && remotes != []
          && (independentOnly || local.None? || local.value.mode == Legacy) ==>
            exists k :: 0 <= k < |remotes| && primary == Some(remotes[k])
                        && Foremost(remotes, order, independentOnly, k))
  {
    var independentOnly := exists k :: 0 <= k < |remotes| && remotes[k].mode == Independent;
    var of := IndependentOf(remotes);
    if enabled && independentOnly {
      var i := ForemostFound(remotes, OnlyIndependent(remotes), of, order, true);
    } else if enabled && remotes != [] && (local.None? || local.value.mode == Legacy) {
      var i := ForemostFound(remotes, remotes, seq(|remotes|, i => i), order, false);
    }
  }

  /** The independent contents, in their order. */
  lemma {:induction false} IndependentOf(contents: seq<ResolvedContent>) returns (of: seq<nat>)
    ensures |of| == |OnlyIndependent(contents)| && Increasing(of)
    ensures forall i :: 0 <= i < |of| ==> of[i] < |contents| && contents[of[i]] == OnlyIndependent(contents)[i]
                                          && contents[of[i]].mode == Independent
    ensures forall k :: 0 <= k < |contents| && contents[k].mode == Independent ==> k in of
  {
    of := [];
    if contents != [] {
      var n := |contents| - 1;
      assert contents == contents[..n] + [contents[n]];
      OnlyIndependentJoins(contents[..n], [contents[n]]);
      of := IndependentOf(contents[..n]);
      hide OnlyIndependent;
      if contents[n].mode == Independent {
        of := of + [n];
      }
    }
  }

  lemma {:induction false} OwnedFirst(contents: seq<ResolvedContent>, cid: string) returns (k: nat)
    ensures OwnedBy(contents, cid).None? ==> forall j :: 0 <= j < |contents| ==> contents[j].ownerCid != cid
    ensures OwnedBy(contents, cid).Some? ==>
              && k < |contents| && OwnedBy(contents, cid) == Some(contents[k]) && contents[k].ownerCid == cid
              && forall j :: 0 <= j < k ==> contents[j].ownerCid != cid
  {
    k := 0;
    if contents != [] && contents[0].ownerCid != cid {
      k := OwnedFirst(contents[1..], cid);
      k := k + 1;
    }
  }

  /** The backward scan finds the owner that is latest in the order. */
  lemma {:induction false} LatestFound(contents: seq<ResolvedContent>, order: seq<string>) returns (i: nat, k: nat)
    ensures
      Latest(contents, order).None? ==>
        forall m, j :: 0 <= m < |order| && 0 <= j < |contents| ==> order[m] != contents[j].ownerCid
    ensures
      Latest(contents, order).Some? ==>
        && i < |order| && k < |contents| && Latest(contents, order) == Some(contents[k])
        && order[i] == contents[k].ownerCid
        && (forall j :: 0 <= j < k ==> contents[j].ownerCid != contents[k].ownerCid)
        && (forall m, j :: i < m < |order| && 0 <= j < |contents| ==> order[m] != contents[j].ownerCid)
  {
    i, k := 0, 0;
    if order != [] {
      var n := |order| - 1;
      k := OwnedFirst(contents, order[n]);
      if OwnedBy(contents, order[n]).Some? {
        i := n;
      } else {
        i, k := LatestFound(contents, order[..n]);
      }
    }
  }

  lemma ForemostFound(remotes: seq<ResolvedContent>, contents: seq<ResolvedContent>, of: seq<nat>, order: seq<string>,
      independentOnly: bool)
    returns (k: nat)
    requires |of| == |contents| > 0 && Increasing(of)
    requires forall i :: 0 <= i < |of| ==> of[i] < |remotes| && remotes[of[i]] == contents[i]
    requires forall i :: 0 <= i < |of| ==> Counts(contents[i], independentOnly)
    requires forall j :: 0 <= j < |remotes| && Counts(remotes[j], independentOnly) ==> j in of
    ensures k < |remotes| && LatestOrLast(contents, order) == Some(remotes[k])
    ensures Foremost(remotes, order, independentOnly, k)
  {
    hide Counts;
    var i, n := LatestFound(contents, order);
    if Latest(contents, order).None? {
      n := |contents| - 1;
    }
    k := of[n];
    forall j | 0 <= j < |remotes| && Counts(remotes[j], independentOnly)
      ensures exists a :: 0 <= a < |of| && of[a] == j && contents[a] == remotes[j]
    {
      var a :| 0 <= a < |of| && of[a] == j;
      assert contents[a] == remotes[j];
    }
  }

  function Resolve(input: Input): Scene {
    var local, remotes := ResolveLocal(input), if input.receivesVideo then RemoteContents(input, input.remotes) else [];
    Scene(Primary(local, remotes, input.order, input.independentEnabled), local, remotes)
  }

  method ResolveContentScene(input: Input) returns (scene: Scene)
    ensures scene == Resolve(input)
  {
    var local := ResolveLocal(input);
    var remotes := ResolveRemoteContents(input);
    var primary := PickPrimaryContent(local, remotes, input.order, input.independentEnabled);
    scene := Scene(primary, local, remotes);
  }

  // ----- the recency list -------------------------------------------------------------------------

  /** `active` as the list before kept it, then the newly active. */
  function Kept(order: seq<string>, active: seq<string>): seq<string> {
    if order == [] then []
    else Kept(order[..|order| - 1], active)
         + if order[|order| - 1] in active then [order[|order| - 1]] else []
  }

  function Appended(order: seq<string>, active: seq<string>): seq<string> {
    if active == [] then order
    else
      var before := Appended(order, active[..|active| - 1]);
      if active[|active| - 1] in before then before else before + [active[|active| - 1]]
  }

  function NextOrder(order: seq<string>, active: seq<string>): seq<string> {
    Appended(Kept(order, active), active)
  }

  /** The change handler of the call flow. */
  method MaintainOrder(order: seq<string>, active: seq<string>) returns (next: seq<string>)
    ensures next == NextOrder(order, active)
  {
    next := [];
    for i := 0 to |order|
      invariant next == Kept(order[..i], active)
    {
      assert order[..i + 1][..i] == order[..i];
      if order[i] in active {
        next := next + [order[i]];
      }
    }
    assert order[..|order|] == order;
    ghost var kept := next;
    for i := 0 to |active|
      invariant next == Appended(kept, active[..i])
    {
      assert active[..i + 1][..i] == active[..i];
      if active[i] !in next {
        next := next + [active[i]];
      }
    }
    assert active[..|active|] == active;
  }

  lemma {:induction false} KeptIs(order: seq<string>, active: seq<string>)
    ensures forall c :: c in Kept(order, active) <==> c in order && c in active
    ensures Distinct(order) ==> Distinct(Kept(order, active))
  {
    if order != [] {
      var front, last := order[..|order| - 1], order[|order| - 1];
      KeptIs(front, active);
      assert order == front + [last];
      if Distinct(order) {
        assert last !in front;
      }
    }
  }

  lemma {:induction false} AppendedIs(order: seq<string>, active: seq<string>)
    ensures forall c :: c in Appended(order, active) <==> c in order || c in active
    ensures Distinct(order) ==> Distinct(Appended(order, active))
    ensures order <= Appended(order, active)
  {
    if active != [] {
      AppendedIs(order, active[..|active| - 1]);
      assert active == active[..|active| - 1] + [active[|active| - 1]];
    }
  }

  /** The list stays free of duplicates, names exactly the active sharers, and keeps
      those it had in their order, in front of the new ones. */
  lemma OrderMaintained(order: seq<string>, active: seq<string>)
    requires Distinct(order)
    ensures
      var next := NextOrder(order, active);
      && Distinct(next)
      && (forall c :: c in next <==> c in active)
      && Kept(order, active) <= next
      && (forall i :: |Kept(order, active)| <= i < |next| ==> next[i] !in order)
  {
    KeptIs(order, active);
    AppendedIs(Kept(order, active), active);
    var next, kept := NextOrder(order, active), Kept(order, active);
    forall i | |kept| <= i < |next|
      ensures next[i] !in order
    {
      assert forall k :: 0 <= k < |kept| ==> next[k] == kept[k] && next[k] != next[i];
      assert next[i] in next;
    }
  }

  // ----- tile identities -----------------------------------------------------------------------------

  datatype TileKind = Camera | Content
  datatype TileKey = TileKey(cid: string, kind: TileKind)
  datatype StageTile = StageTile(id: string, cid: string, kind: TileKind, isLocal: bool)

  function Raw(kind: TileKind): string {
    match kind case Camera => "camera" case Content => "content"
  }

  function TileId(key: TileKey): string {
    key.cid + "::" + Raw(key.kind)
  }

  /** Where the last "::" starts; -1 if there is none. */
  function LastSeparator(id: string): (i: int)
    ensures -1 <= i <= |id| - 2 || i == -1
    ensures i >= 0 ==> id[i..i + 2] == "::"
  {
    if |id| < 2 then -1
    else if id[|id| - 2..] == "::" then |id| - 2
    else
      var i := LastSeparator(id[..|id| - 1]);
      assert i >= 0 ==> id[i..i + 2] == id[..|id| - 1][i..i + 2];
      i
  }

  function ParseTileId(id: string): Option<TileKey> {
    var i := LastSeparator(id);
    if i <= 0 then None
    else if id[i + 2..] == "camera" then Some(TileKey(id[..i], Camera))
    else if id[i + 2..] == "content" then Some(TileKey(id[..i], Content))
    else None
  }

  lemma {:induction false} SeparatorBefore(a: string, b: string)
    requires ':' !in b
    ensures LastSeparator(a + "::" + b) == |a|
    decreases |b|
  {
    var s := a + "::" + b;
    if b == [] {
      assert s[|s| - 2..] == "::";
    } else {
      var c := b[..|b| - 1];
      assert s[|s| - 1] == b[|b| - 1] && b[|b| - 1] in b;
      assert s[|s| - 2..][1] == s[|s| - 1];
      assert s[..|s| - 1] == a + "::" + c;
      SeparatorBefore(a, c);
    }
  }

  /** Parsing inverts printing exactly where there is a participant to name, even when
      its identifier contains the separator. */
  lemma TileIdRoundTrip(key: TileKey)
    ensures ParseTileId(TileId(key)) == Some(key) <==> key.cid != ""
  {
    var id, n := TileId(key), |key.cid|;
    SeparatorBefore(key.cid, Raw(key.kind));
    assert id[..n] == key.cid && id[n + 2..] == Raw(key.kind);
    assert "camera"[1] != "content"[1];
  }

  lemma ParsedTileId(id: string)
    requires ParseTileId(id).Some?
    ensures TileId(ParseTileId(id).value) == id
  {
    var i := LastSeparator(id);
    assert id == id[..i] + id[i..i + 2] + id[i + 2..];
  }

  lemma TileIdInjective(a: TileKey, b: TileKey)
    requires TileId(a) == TileId(b)
    ensures a == b
  {
    SeparatorBefore(a.cid, Raw(a.kind));
    SeparatorBefore(b.cid, Raw(b.kind));
    var id, n := TileId(a), |a.cid|;
    assert id[..n] == a.cid && id[..n] == b.cid && id[n + 2..] == Raw(a.kind) && id[n + 2..] == Raw(b.kind);
    assert "camera"[1] != "content"[1];
  }

  // ----- the tiles ------------------------------------------------------------------------------------

  datatype CameraParticipant = CameraParticipant(cid: string, isLocal: bool)

  function Tile(cid: string, kind: TileKind, isLocal: bool): StageTile {
    StageTile(TileId(TileKey(cid, kind)), cid, kind, isLocal)
  }

  function CameraTiles(cameras: seq<CameraParticipant>, isLocal: bool): seq<StageTile> {
    if cameras == [] then []
    else
      CameraTiles(cameras[..|cameras| - 1], isLocal)
      + if cameras[|cameras| - 1].isLocal == isLocal then [Tile(cameras[|cameras| - 1].cid, Camera, isLocal)] else []
  }

  function ContentTiles(content: seq<ResolvedContent>): seq<StageTile> {
    if content == [] then []
    else
      var c := content[|content| - 1];
      ContentTiles(content[..|content| - 1])
      + if c.mode == Independent then [Tile(c.ownerCid, Content, c.isLocal)] else []
  }

  function StageTiles(cameras: seq<CameraParticipant>, content: seq<ResolvedContent>): seq<StageTile> {
    CameraTiles(cameras, false) + CameraTiles(cameras, true) + ContentTiles(content)
  }

  method DeriveStageTiles(cameras: seq<CameraParticipant>, content: seq<ResolvedContent>)
    returns (tiles: seq<StageTile>)
    ensures tiles == StageTiles(cameras, content)
  {
    tiles := [];
    for i := 0 to |cameras|
      invariant tiles == CameraTiles(cameras[..i], false)
    {
      assert cameras[..i + 1][..i] == cameras[..i];
      if !cameras[i].isLocal {
        tiles := tiles + [Tile(cameras[i].cid, Camera, false)];
      }
    }
    assert cameras[..|cameras|] == cameras;
    for i := 0 to |cameras|
      invariant tiles == CameraTiles(cameras, false) + CameraTiles(cameras[..i], true)
    {
      assert cameras[..i + 1][..i] == cameras[..i];
      if cameras[i].isLocal {
        tiles := tiles + [Tile(cameras[i].cid, Camera, true)];
      }
    }
    for i := 0 to |content|
      invariant tiles == CameraTiles(cameras, false) + CameraTiles(cameras, true) + ContentTiles(content[..i])
    {
      assert content[..i + 1][..i] == content[..i];
      if content[i].mode == Independent {
        tiles := tiles + [Tile(content[i].ownerCid, Content, content[i].isLocal)];
      }
    }
    assert content[..|content|] == content;
  }

  lemma NamedTile(cid: string, kind: TileKind, isLocal: bool)
    ensures Tile(cid, kind, isLocal)
         == StageTile(cid + (if kind == Camera then "::camera" else "::content"), cid, kind, isLocal)
  {
    assert "::" + "camera" == "::camera" && "::" + "content" == "::content";
    assert cid + "::" + "camera" == cid + "::camera" && cid + "::" + "content" == cid + "::content";
  }

  /** The camera tiles are those of the cameras of this side, in their order. */
  lemma {:induction false} CamerasShown(cameras: seq<CameraParticipant>, isLocal: bool) returns (of: seq<nat>)
    ensures |of| == |CameraTiles(cameras, isLocal)| && Increasing(of)
    ensures
      forall i :: 0 <= i < |of| ==>
        && of[i] < |cameras| && cameras[of[i]].isLocal == isLocal
        && CameraTiles(cameras, isLocal)[i]
           == StageTile(cameras[of[i]].cid + "::camera", cameras[of[i]].cid, Camera, isLocal)
    ensures forall k :: 0 <= k < |cameras| && cameras[k].isLocal == isLocal ==> k in of
  {
    of := [];
    if cameras != [] {
      var n := |cameras| - 1;
      hide TileId;
      NamedTile(cameras[n].cid, Camera, isLocal);
      of := CamerasShown(cameras[..n], isLocal);
      if cameras[n].isLocal == isLocal {
        of := of + [n];
      }
    }
  }

  lemma {:induction false} ContentsShown(content: seq<ResolvedContent>) returns (of: seq<nat>)
    ensures |of| == |ContentTiles(content)| && Increasing(of)
    ensures
      forall i :: 0 <= i < |of| ==>
        && of[i] < |content| && content[of[i]].mode == Independent
        && ContentTiles(content)[i]
           == StageTile(content[of[i]].ownerCid + "::content", content[of[i]].ownerCid, Content, content[of[i]].isLocal)
    ensures forall k :: 0 <= k < |content| && content[k].mode == Independent ==> k in of
  {
    of := [];
    if content != [] {
      var n := |content| - 1;
      hide TileId;
      NamedTile(content[n].ownerCid, Content, content[n].isLocal);
      of := ContentsShown(content[..n]);
      assert ContentTiles(content)
          == ContentTiles(content[..n])
             + if content[n].mode == Independent then [Tile(content[n].ownerCid, Content, content[n].isLocal)] else [];
      hide ContentTiles;
      if content[n].mode == Independent {
        of := of + [n];
      }
    }
  }

  /** One tile for each camera and each independent content: the remote cameras, the local
      cameras, the contents, each group in the order it came in. */
  lemma TilesShown(cameras: seq<CameraParticipant>, content: seq<ResolvedContent>)
    returns (remote: seq<nat>, local: seq<nat>, shares: seq<nat>)
    ensures Increasing(remote) && Increasing(local) && Increasing(shares)
    ensures forall i :: 0 <= i < |remote| ==> remote[i] < |cameras| && !cameras[remote[i]].isLocal
    ensures forall i :: 0 <= i < |local| ==> local[i] < |cameras| && cameras[local[i]].isLocal
    ensures forall i :: 0 <= i < |shares| ==> shares[i] < |content| && content[shares[i]].mode == Independent
    ensures forall k :: 0 <= k < |cameras| ==> if cameras[k].isLocal then k in local else k in remote
    ensures forall k :: 0 <= k < |content| && content[k].mode == Independent ==> k in shares
    ensures
      StageTiles(cameras, content)
      == seq(|remote|, i requires 0 <= i < |remote| =>
               StageTile(cameras[remote[i]].cid + "::camera", cameras[remote[i]].cid, Camera, false))
         + seq(|local|, i requires 0 <= i < |local| =>
                 StageTile(cameras[local[i]].cid + "::camera", cameras[local[i]].cid, Camera, true))
         + seq(|shares|, i requires 0 <= i < |shares| =>
                 StageTile(content[shares[i]].ownerCid + "::content", content[shares[i]].ownerCid, Content,
                           content[shares[i]].isLocal))
  {
    remote := CamerasShown(cameras, false);
    local := CamerasShown(cameras, true);
    shares := ContentsShown(content);
    assert CameraTiles(cameras, false) == seq(|remote|, i requires 0 <= i < |remote| =>
      StageTile(cameras[remote[i]].cid + "::camera", cameras[remote[i]].cid, Camera, false));
    assert CameraTiles(cameras, true) == seq(|local|, i requires 0 <= i < |local| =>
      StageTile(cameras[local[i]].cid + "::camera", cameras[local[i]].cid, Camera, true));
    assert ContentTiles(content) == seq(|shares|, i requires 0 <= i < |shares| =>
      StageTile(content[shares[i]].ownerCid + "::content", content[shares[i]].ownerCid, Content,
                content[shares[i]].isLocal));
  }

  predicate HasCamera(cameras: seq<CameraParticipant>, cid: string, isLocal: bool) {
    exists k :: 0 <= k < |cameras| && cameras[k] == CameraParticipant(cid, isLocal)
  }

  predicate HasContent(content: seq<ResolvedContent>, cid: string) {
    exists k :: 0 <= k < |content| && content[k].ownerCid == cid
  }

  predicate DistinctTiles(tiles: seq<StageTile>) {
    forall i, j :: 0 <= i < j < |tiles| ==> (tiles[i].cid, tiles[i].kind) != (tiles[j].cid, tiles[j].kind)
  }

  lemma {:induction false} CameraTilesAre(cameras: seq<CameraParticipant>, isLocal: bool)
    requires forall i, j :: 0 <= i < j < |cameras| ==> cameras[i].cid != cameras[j].cid
    ensures
      var t := CameraTiles(cameras, isLocal);
      && (forall i :: 0 <= i < |t| ==> t[i] == Tile(t[i].cid, Camera, isLocal) && HasCamera(cameras, t[i].cid, isLocal))
      && DistinctTiles(t)
  {
    if cameras != [] {
      var front, last := cameras[..|cameras| - 1], cameras[|cameras| - 1];
      CameraTilesAre(front, isLocal);
      var t := CameraTiles(front, isLocal);
      forall i | 0 <= i < |t|
        ensures HasCamera(cameras, t[i].cid, isLocal) && t[i].cid != last.cid
      {
        var k :| 0 <= k < |front| && front[k] == CameraParticipant(t[i].cid, isLocal);
        assert cameras[k] == front[k];
      }
      if last.isLocal == isLocal {
        assert cameras[|cameras| - 1] == CameraParticipant(last.cid, isLocal);
        assert HasCamera(cameras, last.cid, isLocal);
      }
    }
  }

  lemma {:induction false} ContentTilesAre(content: seq<ResolvedContent>)
    requires forall i, j :: 0 <= i < j < |content| ==> content[i].ownerCid != content[j].ownerCid
    ensures
      var t := ContentTiles(content);
      && (forall i :: 0 <= i < |t| ==> t[i] == Tile(t[i].cid, Content, t[i].isLocal) && HasContent(content, t[i].cid))
      && DistinctTiles(t)
  {
    if content != [] {
      var front, last := content[..|content| - 1], content[|content| - 1];
      ContentTilesAre(front);
      var t := ContentTiles(front);
      forall i | 0 <= i < |t|
        ensures HasContent(content, t[i].cid) && t[i].cid != last.ownerCid
      {
        var k :| 0 <= k < |front| && front[k].ownerCid == t[i].cid;
        assert content[k] == front[k];
      }
      assert HasContent(content, last.ownerCid) by { assert content[|content| - 1] == last; }
    }
  }

  /** Where no participant occurs twice, no two tiles share an identifier. */
  lemma TileIdsDistinct(cameras: seq<CameraParticipant>, content: seq<ResolvedContent>)
    requires forall i, j :: 0 <= i < j < |cameras| ==> cameras[i].cid != cameras[j].cid
    requires forall i, j :: 0 <= i < j < |content| ==> content[i].ownerCid != content[j].ownerCid
    ensures
      var t := StageTiles(cameras, content);
      forall i, j :: 0 <= i < j < |t| ==> t[i].id != t[j].id
  {
    CameraTilesAre(cameras, false);
    CameraTilesAre(cameras, true);
    ContentTilesAre(content);
    OneSide(cameras);
    hide TileId, CameraTiles, ContentTiles, HasCamera, HasContent;
    var t := StageTiles(cameras, content);
    assert DistinctTiles(t);
    forall i, j | 0 <= i < j < |t|
      ensures t[i].id != t[j].id
    {
      if TileId(TileKey(t[i].cid, t[i].kind)) == TileId(TileKey(t[j].cid, t[j].kind)) {
        TileIdInjective(TileKey(t[i].cid, t[i].kind), TileKey(t[j].cid, t[j].kind));
      }
    }
  }

  lemma OneSide(cameras: seq<CameraParticipant>)
    requires forall i, j :: 0 <= i < j < |cameras| ==> cameras[i].cid != cameras[j].cid
    ensures forall cid :: !(HasCamera(cameras, cid, true) && HasCamera(cameras, cid, false))
  {}

  // ----- the spotlight ------------------------------------------------------------------------------------

  function StageContent(scene: Scene): seq<ResolvedContent> {
    if scene.local.Some? then scene.remotes + [scene.local.value] else scene.remotes
  }

  predicate HasTile(tiles: seq<StageTile>, id: string) {
    exists i :: 0 <= i < |tiles| && tiles[i].id == id
  }

  function SpotlightTileId(
      tiles: seq<StageTile>, pinned: Option<TileKey>, primary: Option<ResolvedContent>)
    : Option<string>
  {
    if tiles == [] then None
    else if pinned.Some? && HasTile(tiles, TileId(pinned.value)) then Some(TileId(pinned.value))
    else if primary.Some? && HasTile(tiles, TileId(TileKey(primary.value.ownerCid, Content)))
    then Some(TileId(TileKey(primary.value.ownerCid, Content)))
    else Some(tiles[0].id)
  }

  /** A pinned tile wins as long as it is there; the spotlight is always one of the tiles. */
  lemma PinWins(tiles: seq<StageTile>, pin: TileKey, primary: Option<ResolvedContent>)
    ensures HasTile(tiles, TileId(pin)) ==> SpotlightTileId(tiles, Some(pin), primary) == Some(TileId(pin))
    ensures tiles != [] ==>
      var s := SpotlightTileId(tiles, Some(pin), primary); s.Some? && HasTile(tiles, s.value)
  {
    if tiles != [] {
      assert HasTile(tiles, tiles[0].id);
    }
  }

  /** Without the tile of a pin, the spotlight is on the content of the primary share;
      without that, on the first tile; there is none only where there are no tiles. */
  lemma SpotlightDefault(tiles: seq<StageTile>, pinned: Option<TileKey>, primary: Option<ResolvedContent>)
    requires
      pinned.Some? ==>
        !HasTile(tiles, pinned.value.cid + (if pinned.value.kind == Camera then "::camera" else "::content"))
    ensures
      var content := primary.Some? && HasTile(tiles, primary.value.ownerCid + "::content");
      SpotlightTileId(tiles, pinned, primary)
      == if tiles == [] then None
         else if content then Some(primary.value.ownerCid + "::content") else Some(tiles[0].id)
  {
    assert pinned.Some? ==>
             TileId(pinned.value)
             == pinned.value.cid + (if pinned.value.kind == Camera then "::camera" else "::content");
    assert primary.Some? ==> TileId(TileKey(primary.value.ownerCid, Content)) == primary.value.ownerCid + "::content";
  }

  /** A remote participant shares its screen on a track of its own. */
  predicate SharesIndependently(input: Input, r: RemoteParticipant) {
    input.receivesVideo && input.independentEnabled && r.supportsIndependent && PresentsScreen(r.content)
  }

  predicate RemoteShares(input: Input, cid: string) {
    exists k :: 0 <= k < |input.remotes| && input.remotes[k].cid == cid && SharesIndependently(input, input.remotes[k])
  }

  predicate LocalShares(input: Input) {
    input.receivesVideo && input.independentEnabled && input.local.Some? && PresentsScreen(input.local.value.content)
  }

  predicate OwnsIndependent(contents: seq<ResolvedContent>, cid: string) {
    exists k :: 0 <= k < |contents| && contents[k].mode == Independent && contents[k].ownerCid == cid
  }

  lemma {:induction false} RemoteContentsAre(input: Input, remotes: seq<RemoteParticipant>, cid: string)
    requires input.receivesVideo
    ensures OwnsIndependent(RemoteContents(input, remotes), cid)
       <==> exists k :: 0 <= k < |remotes| && remotes[k].cid == cid && SharesIndependently(input, remotes[k])
  {
    if remotes != [] {
      var front, last := remotes[..|remotes| - 1], remotes[|remotes| - 1];
      RemoteContentsAre(input, front, cid);
      var before, more := RemoteContents(input, front), RemoteContent(input, last);
      AppendOwns(before, more, cid);
      assert OwnsIndependent(more, cid) <==> last.cid == cid && SharesIndependently(input, last) by {
        assert more != [] ==> more[0].ownerCid == last.cid;
      }
      if k :| 0 <= k < |front| && front[k].cid == cid && SharesIndependently(input, front[k]) {
        assert remotes[k] == front[k];
      }
      if k :| 0 <= k < |remotes| && remotes[k].cid == cid && SharesIndependently(input, remotes[k]) {
        assert k < |front| ==> front[k] == remotes[k];
      }
    }
  }

  lemma AppendOwns(a: seq<ResolvedContent>, b: seq<ResolvedContent>, cid: string)
    ensures OwnsIndependent(a + b, cid) <==> OwnsIndependent(a, cid) || OwnsIndependent(b, cid)
  {
    var all := a + b;
    if k :| 0 <= k < |a| && a[k].mode == Independent && a[k].ownerCid == cid {
      assert all[k] == a[k];
    }
    if k :| 0 <= k < |b| && b[k].mode == Independent && b[k].ownerCid == cid {
      assert all[|a| + k] == b[k];
    }
    if k :| 0 <= k < |all| && all[k].mode == Independent && all[k].ownerCid == cid {
      assert k < |a| ==> a[k] == all[k];
      assert k >= |a| ==> b[k - |a|] == all[k];
    }
  }

  lemma {:induction false} OnlyIndependentOwns(contents: seq<ResolvedContent>, cid: string)
    ensures OwnedBy(OnlyIndependent(contents), cid).Some? <==> OwnsIndependent(contents, cid)
    ensures
      var found := OwnedBy(OnlyIndependent(contents), cid);
      found.Some? ==> found.value.ownerCid == cid
  {
    if contents != [] {
      OnlyIndependentOwns(contents[1..], cid);
      assert contents == [contents[0]] + contents[1..];
      AppendOwns([contents[0]], contents[1..], cid);
      var rest := OnlyIndependent(contents[1..]);
      if contents[0].mode == Independent {
        assert ([contents[0]] + rest)[1..] == rest;
        assert contents[0].ownerCid == cid ==> OwnsIndependent([contents[0]], cid) by {
          assert [contents[0]][0] == contents[0];
        }
      } else {
        assert [] + rest == rest;
      }
    }
  }

  /** `cid` shares, and nobody after it in the order does. */
  predicate LatestSharer(input: Input, order: seq<string>, cid: string) {
    RemoteShares(input, cid)
    && exists i :: 0 <= i < |order| && order[i] == cid && forall j :: i < j < |order| ==> !RemoteShares(input, order[j])
  }

  /** Contents whose independent owners are the remote sharers. */
  ghost predicate Represents(input: Input, contents: seq<ResolvedContent>) {
    && (forall cid :: OwnedBy(contents, cid).Some? <==> RemoteShares(input, cid))
    && (forall cid :: OwnedBy(contents, cid).Some? ==> OwnedBy(contents, cid).value.ownerCid == cid)
  }

  lemma {:induction false} LatestIs(input: Input, contents: seq<ResolvedContent>, order: seq<string>)
    requires Represents(input, contents)
    ensures Latest(contents, order).Some? <==> exists c :: c in order && RemoteShares(input, c)
    ensures Latest(contents, order).Some? ==> LatestSharer(input, order, Latest(contents, order).value.ownerCid)
  {
    if order != [] {
      var front, last := order[..|order| - 1], order[|order| - 1];
      assert order == front + [last];
      if OwnedBy(contents, last).Some? {
        assert last in order && order[|order| - 1] == last;
      } else {
        LatestIs(input, contents, front);
        if Latest(contents, front).Some? {
          var cid := Latest(contents, front).value.ownerCid;
          var i :| 0 <= i < |front| && front[i] == cid
                && forall j :: i < j < |front| ==> !RemoteShares(input, front[j]);
          assert order[i] == cid && forall j :: i < j < |order| ==> !RemoteShares(input, order[j]);
        }
      }
    }
  }

  lemma RemotesRepresented(input: Input)
    requires input.receivesVideo
    ensures Represents(input, OnlyIndependent(RemoteContents(input, input.remotes)))
  {
    var contents := RemoteContents(input, input.remotes);
    forall cid
      ensures OwnedBy(OnlyIndependent(contents), cid).Some? <==> RemoteShares(input, cid)
      ensures
        var found := OwnedBy(OnlyIndependent(contents), cid);
        found.Some? ==> found.value.ownerCid == cid
    {
      RemoteContentsAre(input, input.remotes, cid);
      OnlyIndependentOwns(contents, cid);
    }
  }

  lemma {:induction false} ContentTilePresent(content: seq<ResolvedContent>, cid: string)
    requires OwnsIndependent(content, cid)
    ensures HasTile(ContentTiles(content), TileId(TileKey(cid, Content)))
  {
    hide TileId;
    var front, last := content[..|content| - 1], content[|content| - 1];
    var tiles, id := ContentTiles(content), TileId(TileKey(cid, Content));
    if last.mode == Independent && last.ownerCid == cid {
      assert tiles[|tiles| - 1].id == id;
    } else {
      var k :| 0 <= k < |content| && content[k].mode == Independent && content[k].ownerCid == cid;
      assert front[k] == content[k];
      ContentTilePresent(front, cid);
      var i :| 0 <= i < |ContentTiles(front)| && ContentTiles(front)[i].id == id;
      assert tiles[i] == ContentTiles(front)[i];
    }
  }

  lemma TilePresent(cameras: seq<CameraParticipant>, content: seq<ResolvedContent>, cid: string)
    requires OwnsIndependent(content, cid)
    ensures HasTile(StageTiles(cameras, content), TileId(TileKey(cid, Content)))
  {
    hide TileId, CameraTiles, ContentTiles;
    ContentTilePresent(content, cid);
    var c, before := ContentTiles(content), CameraTiles(cameras, false) + CameraTiles(cameras, true);
    var i :| 0 <= i < |c| && c[i].id == TileId(TileKey(cid, Content));
    assert StageTiles(cameras, content)[|before| + i] == c[i];
  }

  /** `cid` is the last of these participants that shares. */
  predicate LastAmong(input: Input, remotes: seq<RemoteParticipant>, cid: string) {
    exists k :: 0 <= k < |remotes| && remotes[k].cid == cid && SharesIndependently(input, remotes[k])
      && forall j :: k < j < |remotes| ==> !SharesIndependently(input, remotes[j])
  }

  predicate LastSharer(input: Input, cid: string) {
    LastAmong(input, input.remotes, cid)
  }

  /** The remote share in the spotlight: the latest in the order if any is in it, else the
      last in input order. */
  ghost predicate FirstChoice(input: Input, cid: string) {
    if exists c :: c in input.order && RemoteShares(input, c) then LatestSharer(input, input.order, cid)
    else LastSharer(input, cid)
  }

  lemma {:induction false} OnlyIndependentJoins(a: seq<ResolvedContent>, b: seq<ResolvedContent>)
    ensures OnlyIndependent(a + b) == OnlyIndependent(a) + OnlyIndependent(b)
  {
    if a == [] {
      assert [] + b == b;
    } else {
      assert (a + b)[1..] == a[1..] + b;
      OnlyIndependentJoins(a[1..], b);
    }
  }

  lemma {:induction false} LastIndependent(input: Input, remotes: seq<RemoteParticipant>)
    requires input.receivesVideo
    ensures
      var only := OnlyIndependent(RemoteContents(input, remotes));
      only != [] ==> LastAmong(input, remotes, only[|only| - 1].ownerCid)
  {
    hide LastAmong, OnlyIndependent, SharesIndependently;
    if remotes == [] {
      assert OnlyIndependent([]) == [] by { OneContent(input, []); }
    } else {
      var front, last := remotes[..|remotes| - 1], remotes[|remotes| - 1];
      assert remotes == front + [last];
      LastIndependent(input, front);
      var before, more := RemoteContents(input, front), RemoteContent(input, last);
      OnlyIndependentJoins(before, more);
      OneContent(input, more);
      OwnContent(input, last);
      LastExtends(input, front, last);
      assert OnlyIndependent(before) + [] == OnlyIndependent(before);
    }
  }

  lemma OneContent(input: Input, contents: seq<ResolvedContent>)
    requires |contents| <= 1
    ensures OnlyIndependent(contents) == if contents != [] && contents[0].mode == Independent then contents else []
  {}

  lemma OwnContent(input: Input, r: RemoteParticipant)
    requires input.receivesVideo
    ensures
      var c := RemoteContent(input, r);
      && |c| <= 1 && (c != [] ==> c[0].ownerCid == r.cid)
      && (c != [] && c[0].mode == Independent <==> SharesIndependently(input, r))
  {}

  lemma LastExtends(input: Input, front: seq<RemoteParticipant>, last: RemoteParticipant)
    ensures SharesIndependently(input, last) ==> LastAmong(input, front + [last], last.cid)
    ensures !SharesIndependently(input, last) ==>
              forall cid :: LastAmong(input, front, cid) ==> LastAmong(input, front + [last], cid)
  {
    hide SharesIndependently;
    var all := front + [last];
    if SharesIndependently(input, last) {
      assert all[|front|] == last;
    } else {
      forall cid | LastAmong(input, front, cid)
        ensures LastAmong(input, all, cid)
      {
        var k :| 0 <= k < |front| && front[k].cid == cid && SharesIndependently(input, front[k])
          && forall j :: k < j < |front| ==> !SharesIndependently(input, front[j]);
        assert all[k] == front[k] && forall j :: k < j < |all| ==> !SharesIndependently(input, all[j]);
      }
    }
  }

  lemma RemotePrimary(input: Input)
    requires exists cid :: RemoteShares(input, cid)
    ensures
      var scene := Resolve(input);
      && scene.primary.Some? && FirstChoice(input, scene.primary.value.ownerCid)
      && RemoteShares(input, scene.primary.value.ownerCid)
      && OwnsIndependent(StageContent(scene), scene.primary.value.ownerCid)
  {
    hide RemoteContents, LatestSharer, LastSharer, OnlyIndependent, Latest, RemoteShares, OwnsIndependent;
    var sharer :| RemoteShares(input, sharer);
    SharingEnabled(input, sharer);
    var scene := Resolve(input);
    var independent := OnlyIndependent(scene.remotes);
    RemotesRepresented(input);
    LatestIs(input, independent, input.order);
    assert OwnedBy(independent, sharer).Some? && independent != [];
    var owner := scene.primary.value.ownerCid;
    if Latest(independent, input.order).Some? {
      LatestShares(input, input.order, owner);
    } else {
      LastChoice(input, owner);
    }
    OnlyIndependentOwns(scene.remotes, owner);
    if scene.local.Some? {
      AppendOwns(scene.remotes, [scene.local.value], owner);
    }
  }

  lemma LastChoice(input: Input, owner: string)
    requires input.receivesVideo
    requires
      var only := OnlyIndependent(RemoteContents(input, input.remotes));
      only != [] && only[|only| - 1].ownerCid == owner
    ensures LastSharer(input, owner) && RemoteShares(input, owner)
  {
    hide OnlyIndependent, RemoteContents, SharesIndependently;
    LastIndependent(input, input.remotes);
  }

  lemma SharingEnabled(input: Input, cid: string)
    requires RemoteShares(input, cid)
    ensures input.receivesVideo && input.independentEnabled
  {}

  lemma LatestShares(input: Input, order: seq<string>, cid: string)
    requires LatestSharer(input, order, cid)
    ensures RemoteShares(input, cid)
  {}

  lemma LocalPrimary(input: Input)
    requires LocalShares(input) && !exists cid :: RemoteShares(input, cid)
    ensures
      var scene := Resolve(input);
      && scene.primary.Some? && scene.primary.value.ownerCid == input.local.value.cid
      && OwnsIndependent(StageContent(scene), scene.primary.value.ownerCid)
  {
    hide RemoteContents, OnlyIndependent, RemoteShares;
    var scene := Resolve(input);
    var independent := OnlyIndependent(scene.remotes);
    RemotesRepresented(input);
    FirstOwned(independent);
    var content := StageContent(scene);
    assert content[|content| - 1] == scene.local.value;
  }

  lemma FirstOwned(contents: seq<ResolvedContent>)
    ensures contents != [] ==> OwnedBy(contents, contents[0].ownerCid).Some?
  {}

  /** Whenever somebody shares on a track of its own and nothing is pinned, the spotlight
      is the content tile of a remote sharer - the latest in the order if any is in it,
      else the last in input order - and of the local one if no remote participant shares. */
  lemma SpotlightIsLatestShare(input: Input, cameras: seq<CameraParticipant>)
    requires LocalShares(input) || exists cid :: RemoteShares(input, cid)
    ensures
      var scene := Resolve(input);
      var spotlight := SpotlightTileId(StageTiles(cameras, StageContent(scene)), None, scene.primary);
      && scene.primary.Some? && spotlight == Some(TileId(TileKey(scene.primary.value.ownerCid, Content)))
      && if exists cid :: RemoteShares(input, cid)
         then RemoteShares(input, scene.primary.value.ownerCid) && FirstChoice(input, scene.primary.value.ownerCid)
         else scene.primary.value.ownerCid == input.local.value.cid
  {
    hide StageTiles, TileId, Resolve, FirstChoice, RemoteShares, LocalShares, OwnsIndependent;
    if exists cid :: RemoteShares(input, cid) {
      RemotePrimary(input);
    } else {
      LocalPrimary(input);
    }
    var scene := Resolve(input);
    TilePresent(cameras, StageContent(scene), scene.primary.value.ownerCid);
  }

  // ----- the spotlight over a call ------------------------------------------------------------------------

  /** The recency list after the change handler saw these lists of active sharers. */
  function OrderAfter(history: seq<seq<string>>): seq<string> {
    if history == [] then []
    else NextOrder(OrderAfter(history[..|history| - 1]), history[|history| - 1])
  }

  /** The change at which `cid` last started to present anything, be it a camera or its
      screen; the number of changes if it does not present. */
  function Since(history: seq<seq<string>>, cid: string): nat {
    if history == [] || cid !in history[|history| - 1] then |history|
    else Since(history[..|history| - 1], cid)
  }

  ghost predicate ByRecency(history: seq<seq<string>>, order: seq<string>) {
    forall i, j :: 0 <= i < j < |order| ==> Since(history, order[i]) <= Since(history, order[j])
  }

  lemma {:induction false} KeptRecency(history: seq<seq<string>>, order: seq<string>, active: seq<string>)
    requires ByRecency(history, order)
    ensures ByRecency(history, Kept(order, active))
  {
    if order != [] {
      var front, last := order[..|order| - 1], order[|order| - 1];
      assert order == front + [last];
      assert ByRecency(history, front) by {
        assert forall i :: 0 <= i < |front| ==> front[i] == order[i];
      }
      KeptRecency(history, front, active);
      KeptIs(front, active);
      var kept := Kept(front, active);
      forall i | 0 <= i < |kept|
        ensures Since(history, kept[i]) <= Since(history, last)
      {
        assert kept[i] in kept && kept[i] in front;
        var k :| 0 <= k < |front| && front[k] == kept[i];
        assert order[k] == kept[i] && order[|order| - 1] == last;
      }
    }
  }

  /** The list names those who present once each, whoever started to present later further back. */
  lemma {:induction false} OrderIsRecency(history: seq<seq<string>>)
    ensures
      var order := OrderAfter(history);
      && Distinct(order) && ByRecency(history, order)
      && (forall c :: c in order <==> history != [] && c in history[|history| - 1])
      && (forall c :: c in order ==> Since(history, c) < |history|)
  {
    if history != [] {
      var front, active := history[..|history| - 1], history[|history| - 1];
      var order, next := OrderAfter(front), OrderAfter(history);
      OrderIsRecency(front);
      OrderMaintained(order, active);
      KeptIs(order, active);
      KeptRecency(front, order, active);
      var kept := Kept(order, active);
      forall c | c in next
        ensures Since(history, c) == (if c in order then Since(front, c) else |front|)
        ensures Since(history, c) < |history|
      {
        SinceNow(front, c);
      }
      forall i, j | 0 <= i < j < |next|
        ensures Since(history, next[i]) <= Since(history, next[j])
      {
        assert next[i] in next && next[j] in next;
        if j < |kept| {
          assert next[i] == kept[i] && next[j] == kept[j] && kept[i] in kept && kept[j] in kept;
        } else {
          assert next[j] !in order;
        }
      }
    }
  }

  lemma SinceNow(history: seq<seq<string>>, c: string)
    ensures history == [] || c !in history[|history| - 1] ==> Since(history, c) == |history|
  {}

  /** The participants that present content, in input order: what the change handler is given. */
  function ActiveCids(remotes: seq<RemoteParticipant>): seq<string> {
    if remotes == [] then []
    else ActiveCids(remotes[..|remotes| - 1])
         + if Presents(remotes[|remotes| - 1].content) then [remotes[|remotes| - 1].cid] else []
  }

  lemma {:induction false} ActiveCidsAre(remotes: seq<RemoteParticipant>)
    ensures forall k :: 0 <= k < |remotes| && Presents(remotes[k].content) ==> remotes[k].cid in ActiveCids(remotes)
  {
    if remotes != [] {
      ActiveCidsAre(remotes[..|remotes| - 1]);
    }
  }

  /** Over a whole call: after any changes, the last of them the present one, the spotlight
      is the content tile of a remote sharer such that no other one started to present
      later, and of the local participant if no remote one shares.  Whose share is the
      latest is another matter: see LatestShareInSpotlight. */
  lemma SpotlightIsMostRecent(input: Input, cameras: seq<CameraParticipant>, history: seq<seq<string>>)
    requires history != [] && history[|history| - 1] == ActiveCids(input.remotes) && input.order == OrderAfter(history)
    requires LocalShares(input) || exists cid :: RemoteShares(input, cid)
    ensures
      var scene := Resolve(input);
      var spotlight := SpotlightTileId(StageTiles(cameras, StageContent(scene)), None, scene.primary);
      && scene.primary.Some? && spotlight == Some(TileId(TileKey(scene.primary.value.ownerCid, Content)))
      && if exists cid :: RemoteShares(input, cid)
         then var owner := scene.primary.value.ownerCid;
              RemoteShares(input, owner)
              && forall c :: RemoteShares(input, c) ==> Since(history, c) <= Since(history, owner)
         else scene.primary.value.ownerCid == input.local.value.cid
  {
    hide StageTiles, TileId, Resolve, RemoteShares, LocalShares, LatestSharer, LastSharer, OrderAfter, Since;
    SpotlightIsLatestShare(input, cameras);
    OrderIsRecency(history);
    SharersListed(input);
    var owner := Resolve(input).primary.value.ownerCid;
    if exists cid :: RemoteShares(input, cid) {
      forall c | RemoteShares(input, c)
        ensures Since(history, c) <= Since(history, owner)
      {
        LatestIsMostRecent(input, history, owner, c);
      }
    }
  }

  /** Whatever was shared before, the list covers every remote sharer. */
  lemma OrderCoversSharers(input: Input, order: seq<string>, active: seq<string>)
    requires Distinct(order) && input.order == NextOrder(order, active)
    requires forall k :: 0 <= k < |input.remotes| && Presents(input.remotes[k].content) ==>
               input.remotes[k].cid in active
    ensures forall cid :: RemoteShares(input, cid) ==> cid in input.order
  {
    OrderMaintained(order, active);
  }

  lemma SharersListed(input: Input)
    ensures forall cid :: RemoteShares(input, cid) ==> cid in ActiveCids(input.remotes)
  {
    ActiveCidsAre(input.remotes);
  }

  lemma LatestIsMostRecent(input: Input, history: seq<seq<string>>, owner: string, c: string)
    requires ByRecency(history, input.order) && LatestSharer(input, input.order, owner)
    requires RemoteShares(input, c) && c in input.order
    ensures Since(history, c) <= Since(history, owner)
  {
    hide Since, RemoteShares;
    var order := input.order;
    var i :| 0 <= i < |order| && order[i] == owner && forall j :: i < j < |order| ==> !RemoteShares(input, order[j]);
    var k :| 0 <= k < |order| && order[k] == c;
    assert k <= i;
  }

  // ----- the latest share ------------------------------------------------------------------------------

  function Present(renders: seq<Input>): Input
    requires renders != []
  {
    renders[|renders| - 1]
  }

  function Active(input: Input): seq<string> {
    ActiveCids(input.remotes)
  }

  /** The recency list after these renders of a call.  The change handler runs when the
      list of those who present differs from that of the render before; it is not run for
      the first render. */
  function OrderShown(renders: seq<Input>): seq<string> {
    if |renders| <= 1 then []
    else
      var front, active := renders[..|renders| - 1], Active(renders[|renders| - 1]);
      if active == Active(front[|front| - 1]) then OrderShown(front) else NextOrder(OrderShown(front), active)
  }

  /** The render at which `cid` last came onto the list; the number of renders if it is not on it. */
  function ListedSince(renders: seq<Input>, cid: string): nat {
    if |renders| <= 1 || cid !in OrderShown(renders) then |renders|
    else
      var front := renders[..|renders| - 1];
      if cid in OrderShown(front) then ListedSince(front, cid) else |renders| - 1
  }

  /** The render since which `cid` shares its screen on a track of its own; the number of
      renders if it does not. */
  function SharesSince(renders: seq<Input>, cid: string): (n: nat)
    ensures renders != [] && RemoteShares(renders[|renders| - 1], cid) ==> n < |renders|
  {
    if renders == [] || !RemoteShares(renders[|renders| - 1], cid) then |renders|
    else SharesSince(renders[..|renders| - 1], cid)
  }

  /** `c` comes in the sequence before `d` does. */
  predicate Earlier(s: seq<string>, c: string, d: string) {
    exists i :: 0 <= i < |s| && s[i] == c && d !in s[..i + 1]
  }

  /** `c` came onto the list before `d`, or with it and in front of it. */
  predicate ListedBefore(renders: seq<Input>, c: string, d: string) {
    var s, t := ListedSince(renders, c), ListedSince(renders, d);
    s < t || (s == t < |renders| && Earlier(Active(renders[s]), c, d))
  }

  lemma {:induction false} AppendedInOrder(order: seq<string>, active: seq<string>)
    ensures
      var all := Appended(order, active);
      forall i, j :: |order| <= i < j < |all| ==> Earlier(active, all[i], all[j])
  {
    AppendedIs(order, active);
    if active != [] {
      var front, last := active[..|active| - 1], active[|active| - 1];
      var before, all := Appended(order, front), Appended(order, active);
      AppendedIs(order, front);
      AppendedInOrder(order, front);
      forall i, j | |order| <= i < j < |all|
        ensures Earlier(active, all[i], all[j])
      {
        AppendedFrom(order, front, i);
        if j < |before| {
          EarlierStays(front, last, all[i], all[j]);
        } else {
          var k :| 0 <= k < |front| && front[k] == before[i];
          assert last !in front && active[..k + 1] == front[..k + 1];
          assert active[k] == all[i] && all[j] == last;
        }
      }
    }
  }

  lemma {:induction false} AppendedFrom(order: seq<string>, active: seq<string>, i: nat)
    requires |order| <= i < |Appended(order, active)|
    ensures Appended(order, active)[i] in active
  {
    if active != [] {
      var front, last := active[..|active| - 1], active[|active| - 1];
      assert active == front + [last];
      if i < |Appended(order, front)| {
        AppendedFrom(order, front, i);
      }
    }
  }

  lemma {:induction false} EarlierStays(s: seq<string>, last: string, c: string, d: string)
    requires Earlier(s, c, d)
    ensures Earlier(s + [last], c, d)
  {
    var i :| 0 <= i < |s| && s[i] == c && d !in s[..i + 1];
    assert (s + [last])[i] == c && (s + [last])[..i + 1] == s[..i + 1];
  }

  /** What is kept comes in its former order. */
  lemma {:induction false} KeptInOrder(order: seq<string>, active: seq<string>, i: nat, j: nat) returns (a: nat, b: nat)
    requires i < j < |Kept(order, active)|
    ensures a < b < |order| && order[a] == Kept(order, active)[i] && order[b] == Kept(order, active)[j]
  {
    var front, last := order[..|order| - 1], order[|order| - 1];
    var kept := Kept(front, active);
    if j < |kept| {
      a, b := KeptInOrder(front, active, i, j);
    } else {
      KeptIs(front, active);
      assert kept[i] in kept;
      a :| 0 <= a < |front| && front[a] == kept[i];
      b := |order| - 1;
    }
  }

  /** The list is in the order in which those on it came onto it; once there is one, it
      names exactly those who present. */
  lemma {:induction false} ShownInOrder(renders: seq<Input>)
    ensures
      var order := OrderShown(renders);
      && Distinct(order) && (forall c :: c in order ==> ListedSince(renders, c) < |renders|)
      && (forall i, j :: 0 <= i < j < |order| ==> ListedBefore(renders, order[i], order[j]))
      && (order != [] ==> forall c :: c in order <==> c in Active(renders[|renders| - 1]))
  {
    if |renders| > 1 {
      var front, last := renders[..|renders| - 1], renders[|renders| - 1];
      ShownInOrder(front);
      var before, order, active := OrderShown(front), OrderShown(renders), Active(last);
      if active == Active(front[|front| - 1]) {
        forall i, j | 0 <= i < j < |order|
          ensures ListedBefore(renders, order[i], order[j])
        {
          ListedLater(renders, order[i], order[j]);
        }
      } else {
        OrderMaintained(before, active);
        NextInOrder(renders);
      }
    }
  }

  lemma {:induction false} ListedLater(renders: seq<Input>, c: string, d: string)
    requires |renders| > 1
    requires
      var front := renders[..|renders| - 1];
      && c in OrderShown(front) && d in OrderShown(front) && c in OrderShown(renders) && d in OrderShown(renders)
      && ListedBefore(front, c, d)
    ensures ListedBefore(renders, c, d)
  {
    hide OrderShown, Earlier, Active;
    var front := renders[..|renders| - 1];
    var s := ListedSince(front, c);
    assert s < |front| ==> front[s] == renders[s];
  }

  lemma {:induction false} NextInOrder(renders: seq<Input>)
    requires |renders| > 1
    requires
      var front, active := renders[..|renders| - 1], Active(renders[|renders| - 1]);
      var before := OrderShown(front);
      && OrderShown(renders) == NextOrder(before, active) && Distinct(before)
      && (forall c :: c in before ==> ListedSince(front, c) < |front|)
      && (forall i, j :: 0 <= i < j < |before| ==> ListedBefore(front, before[i], before[j]))
    ensures
      var order := OrderShown(renders);
      && (forall c :: c in order ==> ListedSince(renders, c) < |renders|)
      && (forall i, j :: 0 <= i < j < |order| ==> ListedBefore(renders, order[i], order[j]))
  {
    hide OrderShown, Earlier, Active;
    var front, active := renders[..|renders| - 1], Active(renders[|renders| - 1]);
    var before, order := OrderShown(front), OrderShown(renders);
    var kept := Kept(before, active);
    OrderMaintained(before, active);
    KeptIs(before, active);
    assert order == Appended(kept, active);
    AppendedInOrder(kept, active);
    forall i, j | 0 <= i < j < |order|
      ensures ListedBefore(renders, order[i], order[j])
    {
      assert order[i] in order && order[j] in order;
      if j < |kept| {
        var a, b := KeptInOrder(before, active, i, j);
        assert order[i] == before[a] && order[j] == before[b];
        ListedLater(renders, order[i], order[j]);
      } else {
        assert order[j] !in before && ListedSince(renders, order[j]) == |front|;
        if i < |kept| {
          assert order[i] == kept[i] && kept[i] in kept;
          assert ListedSince(renders, order[i]) < |front|;
        } else {
          assert order[i] !in before && ListedSince(renders, order[i]) == |front|;
          assert renders[|front|] == renders[|renders| - 1] && Earlier(active, order[i], order[j]);
        }
      }
    }
  }

  /** Of the present remote sharers the one that came onto the list last; before there is
      a list, the last one in input order. */
  ghost predicate ListedLast(renders: seq<Input>, d: string)
    requires renders != []
  {
    var present := Present(renders);
    && RemoteShares(present, d)
    && if OrderShown(renders) == [] then LastSharer(present, d)
       else forall c :: RemoteShares(present, c) && c != d ==> ListedBefore(renders, c, d)
  }

  /** No present remote share is later than that of `d`. */
  ghost predicate SharesLast(renders: seq<Input>, d: string)
    requires renders != []
  {
    var present := Present(renders);
    && RemoteShares(present, d)
    && forall c :: RemoteShares(present, c) ==> SharesSince(renders, c) <= SharesSince(renders, d)
  }

  lemma {:induction false} NotBothEarlier(s: seq<string>, c: string, d: string)
    requires c != d && Earlier(s, c, d)
    ensures !Earlier(s, d, c)
  {
    var i :| 0 <= i < |s| && s[i] == c && d !in s[..i + 1];
    assert forall k :: 0 <= k <= i ==> s[k] in s[..i + 1];
    forall j | 0 <= j < |s| && s[j] == d
      ensures c in s[..j + 1]
    {
      assert s[..j + 1][i] == c;
    }
  }

  lemma {:induction false} NotBothListedBefore(renders: seq<Input>, c: string, d: string)
    ensures c == d || !ListedBefore(renders, c, d) || !ListedBefore(renders, d, c)
  {
    hide OrderShown, ListedSince, Active, Earlier;
    var s := ListedSince(renders, c);
    if c != d && s < |renders| && Earlier(Active(renders[s]), c, d) {
      NotBothEarlier(Active(renders[s]), c, d);
    }
  }

  lemma {:induction false} ListedLastIsOne(renders: seq<Input>, c: string, d: string)
    requires renders != [] && ListedLast(renders, c) && ListedLast(renders, d)
    ensures c == d
  {
    hide RemoteShares, OrderShown, ListedSince, Active, SharesIndependently, ListedBefore;
    NotBothListedBefore(renders, c, d);
  }

  /** Over all renders of a call: the spotlight is the content tile of the remote sharer
      that came onto the list last.  It is the latest share if and only if some remote
      sharer both came onto the list last and shares last; in particular if everybody
      who shares has done so since coming onto the list. */
  lemma {:induction false} LatestShareInSpotlight(renders: seq<Input>, cameras: seq<CameraParticipant>)
    requires renders != [] && Present(renders).order == OrderShown(renders)
    requires exists cid :: RemoteShares(Present(renders), cid)
    ensures
      var present := Present(renders);
      var scene := Resolve(present);
      var spotlight := SpotlightTileId(StageTiles(cameras, StageContent(scene)), None, scene.primary);
      && scene.primary.Some? && spotlight == Some(TileId(TileKey(scene.primary.value.ownerCid, Content)))
      && var owner := scene.primary.value.ownerCid;
         && ListedLast(renders, owner)
         && (SharesLast(renders, owner) <==> exists d :: ListedLast(renders, d) && SharesLast(renders, d))
         && ((forall c :: RemoteShares(present, c) ==> SharesSince(renders, c) == ListedSince(renders, c)) ==>
               SharesLast(renders, owner))
  {
    hide StageTiles, TileId, Resolve, RemoteShares, LocalShares, OrderShown, ListedSince, SharesSince, LastSharer;
    hide Active, Earlier, SpotlightTileId;
    var present := Present(renders);
    SpotlightIsLatestShare(present, cameras);
    var owner := Resolve(present).primary.value.ownerCid;
    LatestIsListedLast(renders, owner);
    forall d | ListedLast(renders, d)
      ensures d == owner
    {
      ListedLastIsOne(renders, d, owner);
    }
    if forall c :: RemoteShares(present, c) ==> SharesSince(renders, c) == ListedSince(renders, c) {
      forall c | RemoteShares(present, c)
        ensures SharesSince(renders, c) <= SharesSince(renders, owner)
      {
        if OrderShown(renders) == [] {
          NotListed(renders, c);
        } else {
          assert c != owner ==> ListedBefore(renders, c, owner);
        }
      }
    }
  }

  lemma {:induction false} NotListed(renders: seq<Input>, c: string)
    requires renders != [] && OrderShown(renders) == [] && RemoteShares(Present(renders), c)
    ensures SharesSince(renders, c) < ListedSince(renders, c)
  {}

  lemma {:induction false} LatestIsListedLast(renders: seq<Input>, owner: string)
    requires renders != [] && Present(renders).order == OrderShown(renders)
    requires RemoteShares(Present(renders), owner) && FirstChoice(Present(renders), owner)
    ensures ListedLast(renders, owner)
  {
    hide RemoteShares, OrderShown, ListedSince, LastSharer, Earlier, Active;
    var present, order := Present(renders), OrderShown(renders);
    ShownInOrder(renders);
    SharersListed(present);
    if order != [] {
      assert forall c :: c in Active(present) <==> c in ActiveCids(present.remotes) by { ActiveAre(present); }
      assert owner in order;
      var i :| 0 <= i < |order| && order[i] == owner
            && forall j :: i < j < |order| ==> !RemoteShares(present, order[j]);
      forall c | RemoteShares(present, c) && c != owner
        ensures ListedBefore(renders, c, owner)
      {
        assert c in order;
        var k :| 0 <= k < |order| && order[k] == c;
        assert k < i;
      }
    }
  }

  lemma {:induction false} ActiveAre(input: Input)
    ensures Active(input) == ActiveCids(input.remotes)
  {}

  // ----- a later share out of the spotlight ----------------------------------------------------------------

  function Showing(cid: string, wire: string): RemoteParticipant {
    RemoteParticipant(cid, Some(ParticipantContent(true, wire)), true)
  }

  function Render(remotes: seq<RemoteParticipant>, order: seq<string>): Input {
    Input(None, remotes, true, true, (cid: string) => true, false, order)
  }

  /** Whoever presents a camera first and turns to its screen later keeps its place: `a`
      shares its screen last, and the screen of `b` stays in the spotlight. */
  lemma CameraFirst(a: string, b: string) returns (renders: seq<Input>)
    requires a != b
    ensures renders != [] && Present(renders).order == OrderShown(renders)
    ensures
      && RemoteShares(Present(renders), a) && RemoteShares(Present(renders), b)
      && SharesSince(renders, a) > SharesSince(renders, b)
      && Resolve(Present(renders)).primary.Some? && Resolve(Present(renders)).primary.value.ownerCid == b
  {
    hide OrderShown, SharesSince, RemoteShares, NextOrder, Resolve, FirstChoice, ActiveCids;
    var camera, screen, peer := Showing(a, "worldCamera"), Showing(a, "screenShare"), Showing(b, "screenShare");
    var nobody, one := Render([], []), Render([camera], [a]);
    var two, both := Render([camera, peer], [a, b]), Render([screen, peer], [a, b]);
    renders := [nobody, one, two, both];
    OneRender(nobody, a);
    OneMoreRender([nobody], one, a);
    OneMoreRender([nobody, one], two, a);
    OneMoreRender([nobody, one, two], both, a);
    OneMoreRender([nobody], one, b);
    OneMoreRender([nobody, one], two, b);
    OneMoreRender([nobody, one, two], both, b);
    assert [nobody] + [one] == [nobody, one];
    assert [nobody, one] + [two] == [nobody, one, two];
    assert [nobody, one, two] + [both] == renders;
    NobodyShown(nobody);
    PairShown(camera, peer);
    PairShown(screen, peer);
    NextTwo(a, b);
    WhoShares(a, b);
    RemotePrimary(both);
    LastOfTwo(both, a, b, Resolve(both).primary.value.ownerCid);
  }

  lemma {:induction false} OneRender(x: Input, c: string)
    ensures OrderShown([x]) == []
  {}

  lemma {:induction false} OneMoreRender(renders: seq<Input>, x: Input, c: string)
    requires renders != []
    ensures OrderShown(renders + [x])
         == if Active(x) == Active(Present(renders)) then OrderShown(renders)
            else NextOrder(OrderShown(renders), Active(x))
    ensures SharesSince(renders + [x], c) == if RemoteShares(x, c) then SharesSince(renders, c) else |renders| + 1
    ensures !RemoteShares(Present(renders), c) ==> SharesSince(renders, c) == |renders|
  {
    hide Active, NextOrder, RemoteShares;
    assert (renders + [x])[..|renders + [x]| - 1] == renders;
  }

  lemma {:induction false} NobodyShown(nobody: Input)
    requires nobody.remotes == []
    ensures Active(nobody) == []
  {}

  lemma {:induction false} PairShown(x: RemoteParticipant, y: RemoteParticipant)
    requires Presents(x.content) && Presents(y.content)
    ensures ActiveCids([x]) == [x.cid] && ActiveCids([x, y]) == [x.cid, y.cid]
  {
    assert [x][..0] == [] && [x, y][..1] == [x];
    assert ActiveCids([x]) == ActiveCids([]) + [x.cid];
    assert ActiveCids([x, y]) == ActiveCids([x]) + [y.cid];
  }

  lemma {:induction false} NextTwo(a: string, b: string)
    requires a != b
    ensures NextOrder([], [a]) == [a] && NextOrder([a], [a, b]) == [a, b]
  {
    assert [a][..0] == [] && [a, b][..1] == [a];
    assert Kept([a], [a, b]) == Kept([], [a, b]) + [a];
    assert Appended([], []) == [] && Appended([a], []) == [a];
    assert Appended([], [a]) == [a] && Appended([a], [a]) == [a];
    assert Appended([a], [a, b]) == [a] + [b];
  }

  /** In the pictures of CameraFirst. */
  lemma {:induction false} WhoShares(a: string, b: string)
    requires a != b
    ensures
      var camera, screen, peer := Showing(a, "worldCamera"), Showing(a, "screenShare"), Showing(b, "screenShare");
      forall order ::
        && !RemoteShares(Render([], order), b) && !RemoteShares(Render([camera], order), b)
        && !RemoteShares(Render([camera], order), a) && !RemoteShares(Render([camera, peer], order), a)
        && RemoteShares(Render([camera, peer], order), b)
        && RemoteShares(Render([screen, peer], order), a) && RemoteShares(Render([screen, peer], order), b)
  {
    assert "screenShare"[0] != "worldCamera"[0] && "screenShare"[0] != "compositeCamera"[0];
    var camera, screen, peer := Showing(a, "worldCamera"), Showing(a, "screenShare"), Showing(b, "screenShare");
    forall order
      ensures RemoteShares(Render([camera, peer], order), b)
      ensures RemoteShares(Render([screen, peer], order), a) && RemoteShares(Render([screen, peer], order), b)
    {
      var two, both := Render([camera, peer], order), Render([screen, peer], order);
      assert two.remotes[1] == peer && SharesIndependently(two, two.remotes[1]);
      assert both.remotes[0] == screen && SharesIndependently(both, both.remotes[0]);
      assert both.remotes[1] == peer && SharesIndependently(both, both.remotes[1]);
    }
  }

  lemma {:induction false} LastOfTwo(input: Input, a: string, b: string, owner: string)
    requires input.order == [a, b] && RemoteShares(input, b) && FirstChoice(input, owner)
    ensures owner == b
  {
    hide RemoteShares;
    assert input.order[1] == b && b in input.order;
  }
}
