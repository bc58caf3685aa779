/**
 * The player's query results, the display snapshot (`Info`) built from
 * them, and discovery of the active player (src/metadata.rs).
 */
module Metadata {
  import opened Wrappers

  type Bytes = seq<bv8>

  /** Horizontal and vertical distance from the anchored screen edges. */
  type Offset = (real, real)

  datatype ScreenLoc = TopRight | TopLeft | BottomLeft | BottomRight

  /** A command the UI sends to the tracking loop. */
  datatype PlayerCommand = Pause | Next | Prev

  datatype PlaybackStatus = Playing | Paused | Stopped

  /** A decoded picture; the default one is the empty 0x0 image. */
  datatype ImageBuf = ImageBuf(width: nat, height: nat, pixels: Bytes)

  const DefaultImage := ImageBuf(0, 0, [])

  /** The display snapshot handed to the UI. */
  datatype Info = Info(
    title: string,
    artists: string,
    artUrl: string,
    albumName: string,
    art: Option<ImageBuf>,
    canPrev: bool,
    canNext: bool,
    canPause: bool,
    isPaused: bool,
    minimize: bool,
    location: ScreenLoc,
    offset: Offset)

  /**
   * Change detection on `Info`: every field except `minimize`, `location`
   * and `offset`, which are marked to be ignored: `a` is the same as `b`
   * exactly when it equals `b` once given `b`'s ignored fields.
   */
  predicate Same(a: Info, b: Info): (r: bool)
    ensures r <==> a.(minimize := b.minimize, location := b.location, offset := b.offset) == b
  {
    a.title == b.title && a.artists == b.artists && a.artUrl == b.artUrl &&
    a.albumName == b.albumName && a.art == b.art &&
    a.canPrev == b.canPrev && a.canNext == b.canNext && a.canPause == b.canPause &&
    a.isPaused == b.isPaused
  }

  /** Changing an ignored field never makes a snapshot look changed. */
  lemma SameIgnoresPlacement(a: Info, minimize: bool, location: ScreenLoc, offset: Offset)
    ensures Same(a, a.(minimize := minimize, location := location, offset := offset))
  {
  }

  /** The track metadata as reported by the player; each field may be missing. */
  datatype TrackMetadata = TrackMetadata(
    title: Option<string>,
    artists: Option<seq<string>>,
    artUrl: Option<string>,
    albumName: Option<string>)

  /**
   * One observation of the player: the result of each query it answers,
   * `None` when the query failed.
   */
  datatype Player = Player(
    metadata: Option<TrackMetadata>,
    canGoPrevious: Option<bool>,
    canPause: Option<bool>,
    canGoNext: Option<bool>,
    status: Option<PlaybackStatus>)

  /** An HTTP response: whether its status is a success, and its body if it could be read. */
  datatype Response = Response(success: bool, body: Option<Bytes>)

  /**
   * The foreign calls the snapshot builder makes: the HTTP fetch of a URL
   * (`None` when sending fails) and the image decoder (`None` when the
   * bytes are not an image).
   */
  datatype Env = Env(fetch: string -> Option<Response>, decode: Bytes -> Option<ImageBuf>)

  /** The places where a thread ends through `unwrap` or `expect`. */
  datatype Panic =
    | BusUnavailable      // PlayerFinder::new failed
    | MetadataUnavailable // player.get_metadata failed
    | SendFailed          // the artwork request could not be sent
    | BodyUnreadable      // the artwork response body could not be read
    | TrackerUnavailable  // player.track_progress failed
    | ConfigPathNotUtf8   // the configuration directory is not valid UTF-8

  /**
   * Artist names joined in order with no separator: the joined length is
   * the sum of the name lengths.
   */
  function Concat(names: seq<string>): (s: string)
    ensures |s| == TotalLength(names)
  {
    if names == [] then "" else Concat(names[..|names| - 1]) + names[|names| - 1]
  }

  /** Total number of characters in `names`. */
  function TotalLength(names: seq<string>): nat {
    if names == [] then 0 else TotalLength(names[..|names| - 1]) + |names[|names| - 1]|
  }

  /** Joining distributes over concatenation of the name lists. */
  lemma {:induction false} ConcatAppend(a: seq<string>, b: seq<string>)
    ensures Concat(a + b) == Concat(a) + Concat(b)
  {
    if b == [] {
      assert a + b == a;
    } else {
      var b' := b[..|b| - 1];
      assert (a + b)[..|a + b| - 1] == a + b';
      ConcatAppend(a, b');
    }
  }

  /** Two names are joined as they stand: ["A", "B"] gives "AB". */
  lemma ConcatPair(x: string, y: string)
    ensures Concat([x, y]) == x + y
  {
    assert [x, y][..1] == [x];
    assert [x][..0] == [];
    assert Concat([x]) == "" + x;
  }

  /**
   * The art buffer: the default image unless the URL is non-empty, the
   * response is a success and its bytes decode; a failed send or body read
   * aborts.
   */
  function ArtBuffer(url: string, env: Env): (r: Result<ImageBuf, Panic>)
    ensures url == "" ==> r == Ok(DefaultImage)
    ensures r.Err? ==> url != "" && (r.error == SendFailed || r.error == BodyUnreadable)
    ensures url != "" ==> (r == Err(SendFailed) <==> env.fetch(url).None?)
    ensures url != "" ==>
              (r == Err(BodyUnreadable) <==>
                 env.fetch(url).Some? && env.fetch(url).value.success && env.fetch(url).value.body.None?)
    ensures r.Ok? && r.value != DefaultImage ==>
              && env.fetch(url).Some? && env.fetch(url).value.success
              && env.fetch(url).value.body.Some?
              && env.decode(env.fetch(url).value.body.value) == Some(r.value)
  {
    if url == "" then Ok(DefaultImage)
    else
      match env.fetch(url)
      case None => Err(SendFailed)
      case Some(resp) =>
        if !resp.success then Ok(DefaultImage)
        else
          match resp.body
          case None => Err(BodyUnreadable)
          case Some(bytes) => Ok(env.decode(bytes).GetOr(DefaultImage))
  }

  /** The snapshot `get_metadata` builds from one observation of the player. */
  function Snapshot(player: Player, location: ScreenLoc, offset: Offset, env: Env): (r: Result<Info, Panic>)
    ensures r.Err? ==> r.error == MetadataUnavailable || r.error == SendFailed || r.error == BodyUnreadable
    ensures r.Ok? ==>
              && player.metadata.Some?
              && r.value.art.Some?
              && !r.value.minimize && r.value.location == location && r.value.offset == offset
  {
    match player.metadata
    case None => Err(MetadataUnavailable)
    case Some(meta) =>
      match ArtBuffer(meta.artUrl.GetOr(""), env)
      case Err(e) => Err(e)
      case Ok(buffer) =>
        Ok(Info(
             title := meta.title.GetOr(""),
             artists := Concat(meta.artists.GetOr([])),
             artUrl := meta.artUrl.GetOr(""),
             albumName := meta.albumName.GetOr(""),
             art := Some(buffer),
             canPrev := !player.canGoPrevious.GetOr(false),
             canNext := !player.canGoNext.GetOr(false),
             canPause := !player.canPause.GetOr(false),
             isPaused := player.status.GetOr(Playing) == Paused,
             minimize := false,
             location := location,
             offset := offset))
  }

  /**
   * Builds the snapshot: accumulates the artist names in a loop and
   * overwrites the default art buffer when the artwork arrives.
   */
  method GetMetadata(player: Player, location: ScreenLoc, offset: Offset, env: Env)
    returns (r: Result<Info, Panic>)
    ensures r == Snapshot(player, location, offset, env)
  {
    if player.metadata.None? {
      return Err(MetadataUnavailable);
    }
    var meta := player.metadata.value;
    var names := meta.artists.GetOr([]);
    var artists := "";
    for i := 0 to |names|
      invariant artists == Concat(names[..i])
    {
      assert names[..i + 1][..i] == names[..i];
      artists := artists + names[i];
    }
    assert names[..|names|] == names;
    var url := meta.artUrl.GetOr("");
    var buffer := DefaultImage;
    if url != "" {
      var resp := env.fetch(url);
      if resp.None? {
        return Err(SendFailed);
      }
      if resp.value.success {
        if resp.value.body.None? {
          return Err(BodyUnreadable);
        }
        buffer := env.decode(resp.value.body.value).GetOr(DefaultImage);
      }
    }
    r := Ok(Info(
              title := meta.title.GetOr(""),
              artists := artists,
              artUrl := url,
              albumName := meta.albumName.GetOr(""),
              art := Some(buffer),
              canPrev := !player.canGoPrevious.GetOr(false),
              canNext := !player.canGoNext.GetOr(false),
              canPause := !player.canPause.GetOr(false),
              isPaused := player.status.GetOr(Playing) == Paused,
              minimize := false,
              location := location,
              offset := offset));
  }

  /**
   * The snapshot fails only at the three `unwrap`s: missing metadata, an
   * artwork request that cannot be sent, an unreadable successful body.
   */
  lemma SnapshotFailures(player: Player, location: ScreenLoc, offset: Offset, env: Env)
    ensures player.metadata.None? ==> Snapshot(player, location, offset, env) == Err(MetadataUnavailable)
    ensures player.metadata.Some? ==>
              var url := player.metadata.value.artUrl.GetOr("");
              && (url == "" ==> Snapshot(player, location, offset, env).Ok?)
              && (url != "" && env.fetch(url).None? ==> Snapshot(player, location, offset, env) == Err(SendFailed))
              && (url != "" && env.fetch(url).Some? && !env.fetch(url).value.success ==>
                    Snapshot(player, location, offset, env).Ok?)
              && (url != "" && env.fetch(url).Some? && env.fetch(url).value.success ==>
                    && (Snapshot(player, location, offset, env).Ok? <==> env.fetch(url).value.body.Some?)
                    && (env.fetch(url).value.body.None? ==> Snapshot(player, location, offset, env) == Err(BodyUnreadable)))
  {
  }

  /**
   * Text fields: missing title, album and URL become "", the artists are
   * the in-order join, and `minimize`, `location`, `offset` come from the
   * arguments.
   */
  lemma SnapshotText(player: Player, location: ScreenLoc, offset: Offset, env: Env)
    requires Snapshot(player, location, offset, env).Ok?
    ensures var info := Snapshot(player, location, offset, env).value;
            var meta := player.metadata.value;
            && (meta.title.None? ==> info.title == "")
            && (meta.title.Some? ==> info.title == meta.title.value)
            && (meta.albumName.None? ==> info.albumName == "")
            && (meta.albumName.Some? ==> info.albumName == meta.albumName.value)
            && (meta.artUrl.None? ==> info.artUrl == "")
            && (meta.artUrl.Some? ==> info.artUrl == meta.artUrl.value)
            && (meta.artists.None? ==> info.artists == "")
            && (meta.artists.Some? ==> |info.artists| == TotalLength(meta.artists.value))
            && !info.minimize && info.location == location && info.offset == offset
  {
  }

  /**
   * Capabilities are stored negated, a failed query counting as false;
   * `isPaused` holds only for a successful query that says Paused.
   */
  lemma SnapshotFlags(player: Player, location: ScreenLoc, offset: Offset, env: Env)
    requires Snapshot(player, location, offset, env).Ok?
    ensures var info := Snapshot(player, location, offset, env).value;
            && (info.canPrev <==> player.canGoPrevious != Some(true))
            && (info.canPause <==> player.canPause != Some(true))
            && (info.canNext <==> player.canGoNext != Some(true))
            && (info.isPaused <==> player.status == Some(Paused))
  {
  }

  /**
   * The art is always present; it is the default image unless a
   * successful response decoded, in which case it is the decoded image.
   */
  lemma SnapshotArt(player: Player, location: ScreenLoc, offset: Offset, env: Env)
    requires Snapshot(player, location, offset, env).Ok?
    ensures var info := Snapshot(player, location, offset, env).value;
            var url := info.artUrl;
            && info.art.Some?
            && (url == "" ==> info.art == Some(DefaultImage))
            && (url != "" && !env.fetch(url).value.success ==> info.art == Some(DefaultImage))
            && (url != "" && env.fetch(url).value.success ==>
                  var bytes := env.fetch(url).value.body.value;
                  && (env.decode(bytes).None? ==> info.art == Some(DefaultImage))
                  && (env.decode(bytes).Some? ==> info.art == env.decode(bytes)))
  {
  }

  /** What a discovery attempt yields while the bus is reachable. */
  datatype Discovery =
    | Found(player: Player, attempt: nat)  // the first successful `find_active`
    | Searching                            // every attempt so far failed; the source keeps retrying

  /**
   * Discovery over the `find_active` results seen so far: an unreachable
   * bus is fatal, otherwise the first success is taken.
   */
  function Discover(busOk: bool, finds: seq<Option<Player>>): (r: Result<Discovery, Panic>)
    ensures !busOk <==> r == Err(BusUnavailable)
    ensures busOk ==> r.Ok?
    ensures r.Ok? && r.value.Found? ==>
              && r.value.attempt < |finds| && finds[r.value.attempt] == Some(r.value.player)
              && forall j :: 0 <= j < r.value.attempt ==> finds[j].None?
    ensures r == Ok(Searching) <==> busOk && forall j :: 0 <= j < |finds| ==> finds[j].None?
    decreases |finds|
  {
    if !busOk then Err(BusUnavailable)
    else if finds == [] then Ok(Searching)
    else if finds[0].Some? then Ok(Found(finds[0].value, 0))
    else
      match Discover(busOk, finds[1..])
      case Ok(Found(p, k)) => Ok(Found(p, k + 1))
      case other => other
  }

  /** The retry loop of `get_player`: errors from `find_active` are never surfaced. */
  method GetPlayer(busOk: bool, finds: seq<Option<Player>>) returns (r: Result<Discovery, Panic>)
    ensures r == Discover(busOk, finds)
  {
    if !busOk {
      return Err(BusUnavailable);
    }
    var i := 0;
    while i < |finds|
      invariant 0 <= i <= |finds|
      invariant forall j :: 0 <= j < i ==> finds[j].None?
    {
      if finds[i].Some? {
        return Ok(Found(finds[i].value, i));
      }
      i := i + 1;
    }
    return Ok(Searching);
  }
}
