/** The pack publisher: creates a custom-emoji sticker set holding the first
    tile, then appends every other tile, one call at a time and in order,
    and gives up with a single generic error at the first failed call. */
module StickerSets {
  import opened Wrappers
  import opened Sequencing
  import opened Telegram

  /** What the handler passes to the publisher. */
  datatype StickerSetConfig = StickerSetConfig(userId: int, setName: string, title: string, emoji: string)

  /** The one error the publisher reports: "Failed to create sticker set". */
  datatype PublishError = StickerSetFailed

  /** A tile as a sticker: static format, labelled with the one default emoji. */
  function StickerFor(path: string, emoji: string): InputSticker {
    InputSticker(path, Static, [emoji])
  }

  predicate IsStickerCall(c: ApiCall) {
    c.CreateNewStickerSet? || c.AddStickerToSet?
  }

  /** The calls of a run in which every call succeeds. */
  function PublishCalls(config: StickerSetConfig, tilePaths: seq<string>, emoji: string): (plan: seq<ApiCall>)
    requires |tilePaths| > 0
    ensures |plan| == |tilePaths|
    ensures plan[0].CreateNewStickerSet? && plan[0].stickerType == CustomEmoji && plan[0].title == config.title
    ensures forall i :: 1 <= i < |plan| ==> plan[i].AddStickerToSet?
    ensures forall c :: c in plan ==> IsStickerCall(c) && c.userId == config.userId && c.name == config.setName
  {
    [CreateNewStickerSet(config.userId, config.setName, config.title, [StickerFor(tilePaths[0], emoji)], CustomEmoji)]
    + seq(|tilePaths| - 1, i requires 0 <= i < |tilePaths| - 1 =>
        AddStickerToSet(config.userId, config.setName, StickerFor(tilePaths[i + 1], emoji)))
  }

  /** Call `i` of a full run: the create call for the first tile, an append
      call for every other one. */
  lemma PublishCallAt(config: StickerSetConfig, tilePaths: seq<string>, emoji: string, i: nat)
    requires i < |tilePaths|
    ensures PublishCalls(config, tilePaths, emoji)[i] ==
      if i == 0 then CreateNewStickerSet(config.userId, config.setName, config.title, [StickerFor(tilePaths[0], emoji)], CustomEmoji)
      else AddStickerToSet(config.userId, config.setName, StickerFor(tilePaths[i], emoji))
  {
  }

  /** The stickers a call carries. */
  function StickersOf(c: ApiCall): seq<InputSticker> {
    match c
    case CreateNewStickerSet(_, _, _, stickers, _) => stickers
    case AddStickerToSet(_, _, sticker) => [sticker]
    case _ => []
  }

  /** The stickers uploaded by a sequence of calls, in order. */
  function Uploaded(calls: seq<ApiCall>): seq<InputSticker> {
    if calls == [] then [] else Uploaded(calls[..|calls| - 1]) + StickersOf(calls[|calls| - 1])
  }

  /** The stickers made from the given files, in the same order. */
  function StickersFor(paths: seq<string>, emoji: string): (stickers: seq<InputSticker>)
    ensures |stickers| == |paths|
    ensures forall i :: 0 <= i < |paths| ==> stickers[i] == StickerFor(paths[i], emoji)
  {
    seq(|paths|, i requires 0 <= i < |paths| => StickerFor(paths[i], emoji))
  }

  lemma StickersForNext(paths: seq<string>, emoji: string, k: nat)
    requires k < |paths|
    ensures StickersFor(paths[..k + 1], emoji) == StickersFor(paths[..k], emoji) + [StickerFor(paths[k], emoji)]
  {
  }

  /** The first `k` calls of a full run upload the first `k` tiles, in
      order, each as a static sticker labelled with the one default emoji. */
  lemma {:induction false} PublishCallsUpload(config: StickerSetConfig, tilePaths: seq<string>, emoji: string, k: nat)
    requires 0 < |tilePaths| && k <= |tilePaths|
    ensures Uploaded(PublishCalls(config, tilePaths, emoji)[..k]) == StickersFor(tilePaths[..k], emoji)
  {
    var plan := PublishCalls(config, tilePaths, emoji);
    if k > 0 {
      PublishCallsUpload(config, tilePaths, emoji, k - 1);
      PublishCallAt(config, tilePaths, emoji, k - 1);
      assert plan[..k][..k - 1] == plan[..k - 1];
      assert Uploaded(plan[..k]) == Uploaded(plan[..k - 1]) + [StickerFor(tilePaths[k - 1], emoji)];
      StickersForNext(tilePaths, emoji, k - 1);
    }
  }

  /** What `createStickerSet` does against a server that judges each call. */
  datatype PublishRun = PublishRun(calls: seq<ApiCall>, result: Result<string, PublishError>)

  function Publish(history: seq<ApiCall>, config: StickerSetConfig, tilePaths: seq<string>, emoji: string,
                   accepts: (seq<ApiCall>, ApiCall) -> bool): (run: PublishRun)
    requires |tilePaths| > 0
    ensures run.calls <= PublishCalls(config, tilePaths, emoji)
    ensures run.result.Success? ==> run.result.value == config.setName
  {
    var plan := PublishCalls(config, tilePaths, emoji);
    var k := Completed(history, plan, accepts);
    PublishRun(Issued(history, plan, accepts), if k == |plan| then Success(config.setName) else Failure(StickerSetFailed))
  }

  /** A successful run makes exactly one create call, carrying the first tile,
      followed by one append call per further tile, and uploads every tile
      exactly once, in input order. */
  lemma PublishSuccess(history: seq<ApiCall>, config: StickerSetConfig, tilePaths: seq<string>, emoji: string,
                       accepts: (seq<ApiCall>, ApiCall) -> bool)
    requires |tilePaths| > 0
    requires Publish(history, config, tilePaths, emoji, accepts).result.Success?
    ensures var calls := Publish(history, config, tilePaths, emoji, accepts).calls;
      |calls| == |tilePaths| &&
      calls[0] == CreateNewStickerSet(config.userId, config.setName, config.title, [StickerFor(tilePaths[0], emoji)], CustomEmoji) &&
      (forall i :: 1 <= i < |calls| ==> calls[i] == AddStickerToSet(config.userId, config.setName, StickerFor(tilePaths[i], emoji))) &&
      (forall j :: 0 <= j < |calls| ==> accepts(history + calls[..j], calls[j])) &&
      Uploaded(calls) == StickersFor(tilePaths, emoji)
  {
    var plan := PublishCalls(config, tilePaths, emoji);
    PublishSuccessIsPlan(history, config, tilePaths, emoji, accepts);
    PublishCallsUpload(config, tilePaths, emoji, |tilePaths|);
    assert plan[..|tilePaths|] == plan;
    assert tilePaths[..|tilePaths|] == tilePaths;
    PublishCallAt(config, tilePaths, emoji, 0);
    forall i | 1 <= i < |plan|
      ensures plan[i] == AddStickerToSet(config.userId, config.setName, StickerFor(tilePaths[i], emoji))
    {
      PublishCallAt(config, tilePaths, emoji, i);
    }
  }

  /** A successful run is the full run, every call of it accepted. */
  lemma PublishSuccessIsPlan(history: seq<ApiCall>, config: StickerSetConfig, tilePaths: seq<string>, emoji: string,
                             accepts: (seq<ApiCall>, ApiCall) -> bool)
    requires |tilePaths| > 0
    requires Publish(history, config, tilePaths, emoji, accepts).result.Success?
    ensures var plan := PublishCalls(config, tilePaths, emoji);
      Publish(history, config, tilePaths, emoji, accepts).calls == plan &&
      (forall j :: 0 <= j < |plan| ==> accepts(history + plan[..j], plan[j]))
  {
  }

  /** A failed run stops at the first refused call: every call before it
      succeeded, nothing is issued after it, and the set left on the server
      holds exactly the tiles before it. */
  lemma PublishFailure(history: seq<ApiCall>, config: StickerSetConfig, tilePaths: seq<string>, emoji: string,
                       accepts: (seq<ApiCall>, ApiCall) -> bool)
    requires |tilePaths| > 0
    requires Publish(history, config, tilePaths, emoji, accepts).result.Failure?
    ensures var run := Publish(history, config, tilePaths, emoji, accepts);
      var n := |run.calls|;
      run.result == Failure(StickerSetFailed) &&
      1 <= n <= |tilePaths| &&
      !accepts(history + run.calls[..n - 1], run.calls[n - 1]) &&
      (forall j :: 0 <= j < n - 1 ==> accepts(history + run.calls[..j], run.calls[j])) &&
      Uploaded(run.calls[..n - 1]) == StickersFor(tilePaths[..n - 1], emoji)
  {
    var plan := PublishCalls(config, tilePaths, emoji);
    var k := Completed(history, plan, accepts);
    var calls := Publish(history, config, tilePaths, emoji, accepts).calls;
    assert k < |plan| && calls == plan[..k + 1];
    assert calls[..k] == plan[..k] && calls[k] == plan[k];
    PublishCallsUpload(config, tilePaths, emoji, k);
    var n := |calls|;
    assert n == k + 1;
    assert 1 <= n <= |tilePaths|;
    assert !accepts(history + calls[..n - 1], calls[n - 1]);
    forall j | 0 <= j < n - 1
      ensures accepts(history + calls[..j], calls[j])
    {
      assert calls[..j] == plan[..j] && calls[j] == plan[j];
    }
    assert Uploaded(calls[..n - 1]) == StickersFor(tilePaths[..n - 1], emoji);
  }

  /** A run whose first `k` calls are accepted and whose next is refused
      issues those `k + 1` calls and fails. */
  lemma PublishStopsAt(history: seq<ApiCall>, config: StickerSetConfig, tilePaths: seq<string>, emoji: string,
                       accepts: (seq<ApiCall>, ApiCall) -> bool, k: nat)
    requires k < |tilePaths|
    requires var plan := PublishCalls(config, tilePaths, emoji);
      (forall j :: 0 <= j < k ==> accepts(history + plan[..j], plan[j])) && !accepts(history + plan[..k], plan[k])
    ensures Publish(history, config, tilePaths, emoji, accepts) ==
      PublishRun(PublishCalls(config, tilePaths, emoji)[..k + 1], Failure(StickerSetFailed))
  {
    CompletedIs(history, PublishCalls(config, tilePaths, emoji), accepts, k);
  }

  /** A run whose every call is accepted issues the full run and returns the
      set's name. */
  lemma PublishCompletes(history: seq<ApiCall>, config: StickerSetConfig, tilePaths: seq<string>, emoji: string,
                         accepts: (seq<ApiCall>, ApiCall) -> bool)
    requires |tilePaths| > 0
    requires var plan := PublishCalls(config, tilePaths, emoji);
      forall j :: 0 <= j < |plan| ==> accepts(history + plan[..j], plan[j])
    ensures Publish(history, config, tilePaths, emoji, accepts) ==
      PublishRun(PublishCalls(config, tilePaths, emoji), Success(config.setName))
  {
    CompletedIs(history, PublishCalls(config, tilePaths, emoji), accepts, |tilePaths|);
  }

  /** Two tiles: the set is created with the first, then the second is appended. */
  lemma TwoTilesPublish(config: StickerSetConfig, p0: string, p1: string, emoji: string)
    ensures PublishCalls(config, [p0, p1], emoji) ==
      [CreateNewStickerSet(config.userId, config.setName, config.title, [StickerFor(p0, emoji)], CustomEmoji),
       AddStickerToSet(config.userId, config.setName, StickerFor(p1, emoji))]
  {
    PublishCallAt(config, [p0, p1], emoji, 0);
    PublishCallAt(config, [p0, p1], emoji, 1);
  }

  class StickerSetService {
    const api: BotApi
    /** The emoji every sticker is labelled with. */
    const defaultEmoji: string

    constructor (api: BotApi, defaultEmoji: string)
      ensures this.api == api && this.defaultEmoji == defaultEmoji
    {
      this.api := api;
      this.defaultEmoji := defaultEmoji;
    }

    method CreateStickerSet(config: StickerSetConfig, tilePaths: seq<string>) returns (r: Result<string, PublishError>)
      requires |tilePaths| > 0
      modifies api
      ensures var run := Publish(old(api.log), config, tilePaths, defaultEmoji, api.server.accepts);
        api.log == old(api.log) + run.calls && r == run.result
    {
      ghost var history := api.log;
      ghost var plan := PublishCalls(config, tilePaths, defaultEmoji);
      var firstSticker := StickerFor(tilePaths[0], defaultEmoji);
      PublishCallAt(config, tilePaths, defaultEmoji, 0);
      var ok := api.Invoke(CreateNewStickerSet(config.userId, config.setName, config.title, [firstSticker], CustomEmoji));
      assert history + plan[..0] == history && api.log == history + plan[..1];
      if !ok {
        PublishStopsAt(history, config, tilePaths, defaultEmoji, api.server.accepts, 0);
        return Failure(StickerSetFailed);
      }
      var i := 1;
      while i < |tilePaths|
        invariant 1 <= i <= |tilePaths|
        invariant api.log == history + plan[..i]
        invariant forall j :: 0 <= j < i ==> api.server.accepts(history + plan[..j], plan[j])
      {
        var sticker := StickerFor(tilePaths[i], defaultEmoji);
        PublishCallAt(config, tilePaths, defaultEmoji, i);
        ok := api.Invoke(AddStickerToSet(config.userId, config.setName, sticker));
        TakeNext(plan, i);
        if !ok {
          PublishStopsAt(history, config, tilePaths, defaultEmoji, api.server.accepts, i);
          return Failure(StickerSetFailed);
        }
        AcceptedNext(history, plan, api.server.accepts, i);
        i := i + 1;
      }
      assert plan[..i] == plan;
      PublishCompletes(history, config, tilePaths, defaultEmoji, api.server.accepts);
      r := Success(config.setName);
    }
  }
}
