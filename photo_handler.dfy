/** The photo-message handler: downloads the largest variant of the photo,
    tiles it, names the pack after the clock and the bot, publishes it and
    reports back to the sender; whatever happens, removal of the temporary
    directory is attempted exactly once at the end, and a failed removal is
    swallowed and leaves the directory. */
module PhotoHandling {
  import opened Wrappers
  import opened Text
  import opened Sequencing
  import opened Telegram
  import opened ImageProcessing
  import opened StickerSets

  const PackTitle: string := "Static Emoji Pack by @web4ken"
  const ProgressText: string := "Creating your emoji pack... This may take a moment."
  const ApologyText: string :=
    "Sorry, there was an error processing your photo. Please try again with a different image format (PNG, JPEG, or WebP)."
  const CreatedPrefix: string := "Your emoji pack has been created! You can find it here: "

  function CreatedText(url: string): string {
    CreatedPrefix + url
  }

  function PackUrl(setName: string): string {
    "https://t.me/addstickers/" + setName
  }

  /** Where the photo's bytes are fetched from; a missing `file_path` is
      interpolated as the text "undefined". */
  function FileUrl(botToken: string, filePath: Option<string>): string {
    "https://api.telegram.org/file/bot" + botToken + "/" + (if filePath.Some? then filePath.value else "undefined")
  }

  /** `pack_<timestamp in base 36>_by_<bot username>`. */
  function SetName(timestamp: nat, botUsername: string): string {
    "pack_" + Digits(timestamp, 36) + "_by_" + botUsername
  }

  /** Distinct timestamps or distinct bots give distinct pack names, and
      both are recovered from the name. */
  lemma SetNameInjective(t1: nat, u1: string, t2: nat, u2: string)
    requires SetName(t1, u1) == SetName(t2, u2)
    ensures t1 == t2 && u1 == u2
  {
    var p := "pack_";
    assert SetName(t1, u1) == p + (Digits(t1, 36) + ['_'] + ("by_" + u1));
    assert SetName(t2, u2) == p + (Digits(t2, 36) + ['_'] + ("by_" + u2));
    var rest := SetName(t1, u1)[|p|..];
    assert rest == Digits(t1, 36) + ['_'] + ("by_" + u1);
    assert rest == Digits(t2, 36) + ['_'] + ("by_" + u2);
    SplitDigits(t1, t2, 36, '_', "by_" + u1, "by_" + u2);
    assert u1 == ("by_" + u1)[3..];
    assert u2 == ("by_" + u2)[3..];
  }

  /** A pack name reads back as `pack_`, the timestamp in base 36, `_by_`
      and the bot's username. */
  lemma SetNameReadsBack(timestamp: nat, botUsername: string)
    ensures var name := SetName(timestamp, botUsername);
      var end := |name| - |botUsername| - 4;
      5 <= end && name[..5] == "pack_" && Parse(name[5..end], 36) == timestamp &&
      name[end..] == "_by_" + botUsername
  {
    var digits := Digits(timestamp, 36);
    var name := SetName(timestamp, botUsername);
    assert name == "pack_" + digits + ("_by_" + botUsername);
    assert name[5..|name| - |botUsername| - 4] == digits;
    ParseDigits(timestamp, 36);
  }

  /** The link reply names exactly one pack. */
  lemma LinkNamesPack(name1: string, name2: string)
    requires CreatedText(PackUrl(name1)) == CreatedText(PackUrl(name2))
    ensures name1 == name2
  {
    var prefix := CreatedPrefix + "https://t.me/addstickers/";
    assert CreatedText(PackUrl(name1)) == prefix + name1;
    assert CreatedText(PackUrl(name2)) == prefix + name2;
    DropPrefix(prefix, name1, name2);
  }

  /** The download URL identifies the file path the server reported; a
      missing path yields the same URL as the literal path "undefined". */
  lemma FileUrlPath(botToken: string, path1: Option<string>, path2: Option<string>)
    ensures FileUrl(botToken, None) == FileUrl(botToken, Some("undefined"))
    ensures path1.Some? && path2.Some? && FileUrl(botToken, path1) == FileUrl(botToken, path2) ==> path1 == path2
  {
    var prefix := "https://api.telegram.org/file/bot" + botToken + "/";
    if path1.Some? && path2.Some? && FileUrl(botToken, path1) == FileUrl(botToken, path2) {
      assert FileUrl(botToken, path1) == prefix + path1.value;
      assert FileUrl(botToken, path2) == prefix + path2.value;
      DropPrefix(prefix, path1.value, path2.value);
    }
  }

  /** The three replies differ from one another. */
  lemma RepliesDistinct(setName: string)
    ensures ApologyText != ProgressText && ApologyText != CreatedText(PackUrl(setName)) && ProgressText != CreatedText(PackUrl(setName))
  {
    assert |ProgressText| < |CreatedPrefix| && |ProgressText| < |ApologyText|;
    assert ApologyText[80] == 'n' && CreatedText(PackUrl(setName))[80] == '/';
  }

  datatype PhotoSize = PhotoSize(fileId: string)

  /** The answer to fetching the file URL: a transport error, or a response
      with its ok-status and what the image library decodes from its body. */
  datatype Download = NetworkError | Response(ok: bool, body: Image)

  /** The part of an incoming photo message the handler reads. */
  datatype Message = Message(photo: seq<PhotoSize>, fromId: Option<int>)

  /** Everything outside the handler that one invocation depends on. */
  datatype Env = Env(
    botToken: string,
    emoji: string,
    server: Server,
    tempDir: string,
    disk: (seq<Tile>, Tile) -> bool,
    fetch: string -> Download,
    now: nat)

  datatype HandlerError =
    | NoPhoto
    | GetFileFailed
    | DownloadFailed
    | BadStatus
    | TilingFailed(tileError: TileError)
    | NoUserId
    | GetMeFailed
    | NoUsername
    | ReplyFailed
    | PublishFailed(publishError: PublishError)

  /** JavaScript truthiness of the sender's id and the bot's username. */
  predicate HasUserId(id: Option<int>) {
    id.Some? && id.value != 0
  }

  predicate HasUsername(name: Option<string>) {
    name.Some? && name.value != ""
  }

  predicate PublishInvoked(calls: seq<ApiCall>) {
    exists i :: 0 <= i < |calls| && IsStickerCall(calls[i])
  }

  /** The `try` block of one invocation: the calls it makes, the tiles it
      writes and how it ends (a pack name, or the error it throws). */
  datatype Attempt = Attempt(calls: seq<ApiCall>, written: seq<Tile>, result: Result<string, HandlerError>)

  function TryBlock(env: Env, history: seq<ApiCall>, msg: Message): Attempt {
    if |msg.photo| == 0 then Attempt([], [], Failure(NoPhoto))
    else
      var getFile := GetFile(msg.photo[|msg.photo| - 1].fileId);
      if !env.server.accepts(history, getFile) then Attempt([getFile], [], Failure(GetFileFailed))
      else
        var rest := AfterGetFile(env, history + [getFile], getFile.fileId, msg.fromId);
        Attempt([getFile] + rest.calls, rest.written, rest.result)
  }

  /** The answer to fetching the file the server reports for `fileId`. */
  function DownloadOf(env: Env, fileId: string): Download {
    env.fetch(FileUrl(env.botToken, env.server.filePathOf(fileId)))
  }

  /** What follows a successful `getFile`: the download and its status check,
      then tiling and publishing. */
  function AfterGetFile(env: Env, history: seq<ApiCall>, fileId: string, fromId: Option<int>): Attempt {
    var download := DownloadOf(env, fileId);
    if download.NetworkError? then Attempt([], [], Failure(DownloadFailed))
    else if !download.ok then Attempt([], [], Failure(BadStatus))
    else AfterDownload(env.server, env.emoji, env.now, env.tempDir, env.disk, history, download.body, fromId)
  }

  /** What follows a successful download: tiling the image, then the rest of
      the `try` block when it produced tiles. */
  function AfterDownload(server: Server, emoji: string, now: nat, tempDir: string, disk: (seq<Tile>, Tile) -> bool,
                         history: seq<ApiCall>, body: Image, fromId: Option<int>): Attempt {
    var tiling := Tiling(body, tempDir, [], disk);
    if tiling.result.Failure? then Attempt([], tiling.written, Failure(TilingFailed(tiling.result.error)))
    else
      var rest := AfterTiling(server, emoji, now, history, fromId, tiling.result.value);
      Attempt(rest.calls, tiling.written, rest.result)
  }

  /** The calls made once the tiles exist, and how the `try` block ends. */
  datatype Outcome = Outcome(calls: seq<ApiCall>, result: Result<string, HandlerError>)

  function AfterTiling(server: Server, emoji: string, now: nat, history: seq<ApiCall>, fromId: Option<int>,
                       tilePaths: seq<string>): Outcome
    requires |tilePaths| > 0
  {
    if !HasUserId(fromId) then Outcome([], Failure(NoUserId))
    else if !server.accepts(history, GetMe) then Outcome([GetMe], Failure(GetMeFailed))
    else if !HasUsername(server.username) then Outcome([GetMe], Failure(NoUsername))
    else
      var config := StickerSetConfig(fromId.value, SetName(now, server.username.value), PackTitle, emoji);
      var progress := SendMessage(ProgressText);
      if !server.accepts(history + [GetMe], progress) then Outcome([GetMe, progress], Failure(ReplyFailed))
      else
        var publish := Publish(history + [GetMe, progress], config, tilePaths, emoji, server.accepts);
        var before := [GetMe, progress] + publish.calls;
        if publish.result.Failure? then Outcome(before, Failure(PublishFailed(publish.result.error)))
        else
          var created := SendMessage(CreatedText(PackUrl(publish.result.value)));
          Outcome(before + [created],
                  if server.accepts(history + before, created) then Success(publish.result.value) else Failure(ReplyFailed))
  }

  /** The calls made after tiling when every step succeeds: `getMe`, the
      progress reply, one publishing call per tile and the link reply. */
  function FullRunCalls(emoji: string, now: nat, userId: int, username: string, tilePaths: seq<string>): seq<ApiCall>
    requires |tilePaths| > 0
  {
    var name := SetName(now, username);
    [GetMe, SendMessage(ProgressText)] + PublishCalls(StickerSetConfig(userId, name, PackTitle, emoji), tilePaths, emoji)
    + [SendMessage(CreatedText(PackUrl(name)))]
  }

  /** One whole invocation: the `try` block, then the apology if it threw;
      `raised` tells whether the apology itself failed, so that the error
      leaves the handler (after the `finally` block has run). */
  datatype HandleRun = HandleRun(calls: seq<ApiCall>, written: seq<Tile>, raised: bool)

  function Handle(env: Env, history: seq<ApiCall>, msg: Message): HandleRun {
    var a := TryBlock(env, history, msg);
    if a.result.Success? then HandleRun(a.calls, a.written, false)
    else HandleRun(a.calls + [SendMessage(ApologyText)], a.written, !env.server.accepts(history + a.calls, SendMessage(ApologyText)))
  }

  /** No step of the `try` block sends the apology. */
  lemma {:induction false} NoApologyInTry(env: Env, history: seq<ApiCall>, msg: Message)
    ensures SendMessage(ApologyText) !in TryBlock(env, history, msg).calls
  {
    if |msg.photo| > 0 {
      var getFile := GetFile(msg.photo[|msg.photo| - 1].fileId);
      if env.server.accepts(history, getFile) {
        var download := DownloadOf(env, getFile.fileId);
        if download.Response? && download.ok {
          var tiling := Tiling(download.body, env.tempDir, [], env.disk);
          if tiling.result.Success? {
            NoApologyAfterTiling(env.server, env.emoji, env.now, history + [getFile], msg.fromId, tiling.result.value);
          }
        }
      }
    }
  }

  lemma {:induction false} NoApologyAfterTiling(server: Server, emoji: string, now: nat, history: seq<ApiCall>,
                                                fromId: Option<int>, tilePaths: seq<string>)
    requires |tilePaths| > 0
    ensures SendMessage(ApologyText) !in AfterTiling(server, emoji, now, history, fromId, tilePaths).calls
  {
    if HasUserId(fromId) && server.accepts(history, GetMe) && HasUsername(server.username) {
      var config := StickerSetConfig(fromId.value, SetName(now, server.username.value), PackTitle, emoji);
      var progress := SendMessage(ProgressText);
      RepliesDistinct(config.setName);
      if server.accepts(history + [GetMe], progress) {
        var publish := Publish(history + [GetMe, progress], config, tilePaths, emoji, server.accepts);
        var plan := PublishCalls(config, tilePaths, emoji);
        assert forall i :: 0 <= i < |publish.calls| ==> publish.calls[i] == plan[i];
        assert SendMessage(ApologyText) !in publish.calls;
      }
    }
  }

  /** The apology is sent if and only if the `try` block failed; it is then
      the last call and is sent once, and the tiles written are those the
      `try` block wrote. */
  lemma ApologyIffFailure(env: Env, history: seq<ApiCall>, msg: Message)
    ensures var a := TryBlock(env, history, msg);
      var run := Handle(env, history, msg);
      run.written == a.written &&
      (a.result.Failure? <==> SendMessage(ApologyText) in run.calls) &&
      (a.result.Failure? ==>
         run.calls[|run.calls| - 1] == SendMessage(ApologyText) && multiset(run.calls)[SendMessage(ApologyText)] == 1) &&
      (a.result.Success? ==> !run.raised)
  {
    NoApologyInTry(env, history, msg);
  }

  /** After tiling, a successful run identified the sender and the bot,
      announced the work, published every tile in order and sent the link to
      the pack, which is named after the clock and the bot. */
  lemma AfterTilingSuccess(server: Server, emoji: string, now: nat, history: seq<ApiCall>, fromId: Option<int>,
                           tilePaths: seq<string>)
    requires |tilePaths| > 0
    requires AfterTiling(server, emoji, now, history, fromId, tilePaths).result.Success?
    ensures HasUserId(fromId) && HasUsername(server.username)
    ensures var name := SetName(now, server.username.value);
      var publish := PublishCalls(StickerSetConfig(fromId.value, name, PackTitle, emoji), tilePaths, emoji);
      var o := AfterTiling(server, emoji, now, history, fromId, tilePaths);
      o.result == Success(name) &&
      o.calls == [GetMe, SendMessage(ProgressText)] + publish + [SendMessage(CreatedText(PackUrl(name)))] &&
      Uploaded(publish) == StickersFor(tilePaths, emoji)
  {
    var name := SetName(now, server.username.value);
    var config := StickerSetConfig(fromId.value, name, PackTitle, emoji);
    var progress := SendMessage(ProgressText);
    var plan := PublishCalls(config, tilePaths, emoji);
    assert HasUserId(fromId) && server.accepts(history, GetMe) && HasUsername(server.username) &&
           server.accepts(history + [GetMe], progress);
    assert Publish(history + [GetMe, progress], config, tilePaths, emoji, server.accepts).result.Success?;
    PublishSuccessIsPlan(history + [GetMe, progress], config, tilePaths, emoji, server.accepts);
    PublishCallsUpload(config, tilePaths, emoji, |tilePaths|);
    assert plan[..|tilePaths|] == plan && tilePaths[..|tilePaths|] == tilePaths;
  }

  /** After tiling, once the sender and the bot are identified and the
      server accepts every call, the stage makes the full sequence of calls
      and succeeds with the pack named after the clock and the bot. */
  lemma AfterTilingCompletes(server: Server, emoji: string, now: nat, history: seq<ApiCall>, fromId: Option<int>,
                             tilePaths: seq<string>)
    requires |tilePaths| > 0 && HasUserId(fromId) && HasUsername(server.username)
    requires AllAccepted(history, FullRunCalls(emoji, now, fromId.value, server.username.value, tilePaths), server.accepts)
    ensures AfterTiling(server, emoji, now, history, fromId, tilePaths) ==
      Outcome(FullRunCalls(emoji, now, fromId.value, server.username.value, tilePaths), Success(SetName(now, server.username.value)))
  {
    var name := SetName(now, server.username.value);
    var config := StickerSetConfig(fromId.value, name, PackTitle, emoji);
    var progress := SendMessage(ProgressText);
    var plan := PublishCalls(config, tilePaths, emoji);
    var created := SendMessage(CreatedText(PackUrl(name)));
    var calls := FullRunCalls(emoji, now, fromId.value, server.username.value, tilePaths);
    assert calls == [GetMe, progress] + plan + [created];
    assert calls[..0] == [] && history + [] == history;
    assert server.accepts(history, GetMe);
    assert calls[..1] == [GetMe];
    assert server.accepts(history + [GetMe], progress);
    forall j | 0 <= j < |plan|
      ensures server.accepts(history + [GetMe, progress] + plan[..j], plan[j])
    {
      assert calls[..j + 2] == [GetMe, progress] + plan[..j] && calls[j + 2] == plan[j];
      AppendAssoc(history, [GetMe, progress], plan[..j]);
    }
    PublishCompletes(history + [GetMe, progress], config, tilePaths, emoji, server.accepts);
    assert calls[..|calls| - 1] == [GetMe, progress] + plan;
  }

  /** After tiling, each identity error happens exactly when its check fails,
      and a publishing error exactly when the publisher fails after the
      progress reply went out. */
  lemma AfterTilingErrors(server: Server, emoji: string, now: nat, history: seq<ApiCall>, fromId: Option<int>,
                          tilePaths: seq<string>)
    requires |tilePaths| > 0
    ensures var o := AfterTiling(server, emoji, now, history, fromId, tilePaths);
      (o.result == Failure(NoUserId) <==> !HasUserId(fromId)) &&
      (o.result == Failure(GetMeFailed) <==> HasUserId(fromId) && !server.accepts(history, GetMe)) &&
      (o.result == Failure(NoUsername) <==>
         HasUserId(fromId) && server.accepts(history, GetMe) && !HasUsername(server.username))
    ensures var o := AfterTiling(server, emoji, now, history, fromId, tilePaths);
      (o.result.Failure? && o.result.error.PublishFailed?) <==>
        HasUserId(fromId) && server.accepts(history, GetMe) && HasUsername(server.username) &&
        server.accepts(history + [GetMe], SendMessage(ProgressText)) &&
        Publish(history + [GetMe, SendMessage(ProgressText)],
                StickerSetConfig(fromId.value, SetName(now, server.username.value), PackTitle, emoji),
                tilePaths, emoji, server.accepts).result.Failure?
  {
  }

  /** After tiling, publishing starts only once the sender and the bot are
      identified and the progress reply was sent, and it starts whenever the
      stage ends in success or in a publishing error. */
  lemma AfterTilingPublishes(server: Server, emoji: string, now: nat, history: seq<ApiCall>, fromId: Option<int>,
                             tilePaths: seq<string>)
    requires |tilePaths| > 0
    ensures var o := AfterTiling(server, emoji, now, history, fromId, tilePaths);
      (PublishInvoked(o.calls) ==>
        HasUserId(fromId) && HasUsername(server.username) &&
        |o.calls| > 2 && o.calls[..2] == [GetMe, SendMessage(ProgressText)] &&
        (forall i :: 0 <= i < |o.calls| && IsStickerCall(o.calls[i]) ==> 2 <= i)) &&
      (o.result.Success? || o.result.error.PublishFailed? ==> PublishInvoked(o.calls)) &&
      (o.result.Failure? && o.result.error in {NoUserId, GetMeFailed, NoUsername} ==> !PublishInvoked(o.calls))
  {
    var o := AfterTiling(server, emoji, now, history, fromId, tilePaths);
    if HasUserId(fromId) && server.accepts(history, GetMe) && HasUsername(server.username)
       && server.accepts(history + [GetMe], SendMessage(ProgressText)) {
      var config := StickerSetConfig(fromId.value, SetName(now, server.username.value), PackTitle, emoji);
      var publish := Publish(history + [GetMe, SendMessage(ProgressText)], config, tilePaths, emoji, server.accepts);
      var plan := PublishCalls(config, tilePaths, emoji);
      assert |publish.calls| > 0 ==> publish.calls[0] == plan[0];
      assert |Issued(history + [GetMe, SendMessage(ProgressText)], plan, server.accepts)| > 0;
      assert o.calls[2] == publish.calls[0];
      assert o.calls[..2] == [GetMe, SendMessage(ProgressText)];
    } else {
      assert !PublishInvoked(o.calls);
    }
  }

  /** The `try` block reaches the post-tiling stage exactly when the photo
      was fetched with an ok status and tiled completely. */
  predicate Tiled(env: Env, history: seq<ApiCall>, msg: Message) {
    |msg.photo| > 0 && env.server.accepts(history, GetFile(msg.photo[|msg.photo| - 1].fileId)) &&
    var download := DownloadOf(env, msg.photo[|msg.photo| - 1].fileId);
    download.Response? && download.ok && Tiling(download.body, env.tempDir, [], env.disk).result.Success?
  }

  /** The `try` block is `getFile` followed by the post-tiling stage when the
      photo was tiled, and otherwise stops at one of the earlier errors
      after at most the `getFile` call. */
  lemma TryStages(env: Env, history: seq<ApiCall>, msg: Message)
    ensures var a := TryBlock(env, history, msg);
      if Tiled(env, history, msg) then
        var getFile := GetFile(msg.photo[|msg.photo| - 1].fileId);
        var body := DownloadOf(env, getFile.fileId).body;
        var tiling := Tiling(body, env.tempDir, [], env.disk);
        var o := AfterTiling(env.server, env.emoji, env.now, history + [getFile], msg.fromId, tiling.result.value);
        a.calls == [getFile] + o.calls && a.written == TilePlan(env.tempDir, CheckImage(body).value) && a.result == o.result
      else
        |a.calls| <= 1 && (forall i :: 0 <= i < |a.calls| ==> a.calls[i].GetFile?) &&
        a.result.Failure? && (a.result.error in {NoPhoto, GetFileFailed, DownloadFailed, BadStatus} || a.result.error.TilingFailed?)
  {
    if |msg.photo| > 0 && env.server.accepts(history, GetFile(msg.photo[|msg.photo| - 1].fileId)) {
      var getFile := GetFile(msg.photo[|msg.photo| - 1].fileId);
      var download := DownloadOf(env, getFile.fileId);
      if download.Response? && download.ok {
        var rest := AfterDownload(env.server, env.emoji, env.now, env.tempDir, env.disk, history + [getFile], download.body, msg.fromId);
        assert TryBlock(env, history, msg) == Attempt([getFile] + rest.calls, rest.written, rest.result);
      }
    }
  }

  /** An invocation in which the largest photo is fetched with an ok status,
      its size is accepted, every tile write and every call succeeds, and
      both the sender and the bot are identified, publishes every tile and
      ends in success without an apology. */
  lemma HandleCompletes(env: Env, history: seq<ApiCall>, msg: Message)
    requires |msg.photo| > 0
    requires env.server.accepts(history, GetFile(msg.photo[|msg.photo| - 1].fileId))
    requires var d := DownloadOf(env, msg.photo[|msg.photo| - 1].fileId);
      d.Response? && d.ok && CheckImage(d.body).Success? &&
      AllAccepted([], TilePlan(env.tempDir, CheckImage(d.body).value), env.disk)
    requires HasUserId(msg.fromId) && HasUsername(env.server.username)
    requires var d := DownloadOf(env, msg.photo[|msg.photo| - 1].fileId);
      var tiles := TilePlan(env.tempDir, CheckImage(d.body).value);
      AllAccepted(history + [GetFile(msg.photo[|msg.photo| - 1].fileId)],
                  FullRunCalls(env.emoji, env.now, msg.fromId.value, env.server.username.value, PathsOf(tiles)),
                  env.server.accepts)
    ensures var d := DownloadOf(env, msg.photo[|msg.photo| - 1].fileId);
      var tiles := TilePlan(env.tempDir, CheckImage(d.body).value);
      var calls := [GetFile(msg.photo[|msg.photo| - 1].fileId)] +
                   FullRunCalls(env.emoji, env.now, msg.fromId.value, env.server.username.value, PathsOf(tiles));
      TryBlock(env, history, msg) == Attempt(calls, tiles, Success(SetName(env.now, env.server.username.value))) &&
      Handle(env, history, msg) == HandleRun(calls, tiles, false)
  {
    var getFile := GetFile(msg.photo[|msg.photo| - 1].fileId);
    var body := DownloadOf(env, getFile.fileId).body;
    var tiles := TilePlan(env.tempDir, CheckImage(body).value);
    TilingCompletes(body, env.tempDir, [], env.disk);
    assert Tiled(env, history, msg);
    TryStages(env, history, msg);
    AfterTilingCompletes(env.server, env.emoji, env.now, history + [getFile], msg.fromId, PathsOf(tiles));
  }

  /** A successful invocation fetched the largest photo, asked who the bot
      is, announced the work, published every tile of the full plan in
      row-major order, and finally sent the link to the pack it named. */
  lemma HandleSuccess(env: Env, history: seq<ApiCall>, msg: Message)
    requires TryBlock(env, history, msg).result.Success?
    ensures Tiled(env, history, msg) && HasUserId(msg.fromId) && HasUsername(env.server.username)
    ensures var name := SetName(env.now, env.server.username.value);
      var run := Handle(env, history, msg);
      var body := DownloadOf(env, msg.photo[|msg.photo| - 1].fileId).body;
      var tiles := TilePlan(env.tempDir, CheckImage(body).value);
      var publish := PublishCalls(StickerSetConfig(msg.fromId.value, name, PackTitle, env.emoji), PathsOf(tiles), env.emoji);
      TryBlock(env, history, msg).result == Success(name) && !run.raised &&
      run.written == tiles &&
      run.calls == [GetFile(msg.photo[|msg.photo| - 1].fileId), GetMe, SendMessage(ProgressText)] + publish +
                   [SendMessage(CreatedText(PackUrl(name)))] &&
      Uploaded(publish) == StickersFor(PathsOf(tiles), env.emoji)
  {
    TryStages(env, history, msg);
    var a := TryBlock(env, history, msg);
    var getFile := GetFile(msg.photo[|msg.photo| - 1].fileId);
    var body := DownloadOf(env, getFile.fileId).body;
    var tiling := Tiling(body, env.tempDir, [], env.disk);
    var tiles := TilePlan(env.tempDir, CheckImage(body).value);
    assert tiling.result.value == PathsOf(tiles);
    var o := AfterTiling(env.server, env.emoji, env.now, history + [getFile], msg.fromId, tiling.result.value);
    AfterTilingSuccess(env.server, env.emoji, env.now, history + [getFile], msg.fromId, tiling.result.value);
    var name := SetName(env.now, env.server.username.value);
    var publish := PublishCalls(StickerSetConfig(msg.fromId.value, name, PackTitle, env.emoji), PathsOf(tiles), env.emoji);
    var created := SendMessage(CreatedText(PackUrl(name)));
    assert o.calls == [GetMe, SendMessage(ProgressText)] + publish + [created];
    assert a.calls == [getFile] + o.calls;
    PrependCall(getFile, GetMe, SendMessage(ProgressText), publish, [created]);
    assert Handle(env, history, msg) == HandleRun(a.calls, a.written, false);
  }

  lemma PrependCall(first: ApiCall, x: ApiCall, y: ApiCall, b: seq<ApiCall>, c: seq<ApiCall>)
    ensures [first] + ([x, y] + b + c) == [first, x, y] + b + c
  {
    assert [first] + [x, y] == [first, x, y];
  }

  /** The calls of an invocation are those of the `try` block, followed by
      the apology when it failed; only the former can publish. */
  lemma HandleCalls(env: Env, history: seq<ApiCall>, msg: Message)
    ensures var a := TryBlock(env, history, msg);
      var run := Handle(env, history, msg);
      run.written == a.written && |a.calls| <= |run.calls| && run.calls[..|a.calls|] == a.calls &&
      (forall i :: 0 <= i < |run.calls| && IsStickerCall(run.calls[i]) ==> i < |a.calls|) &&
      (PublishInvoked(run.calls) <==> PublishInvoked(a.calls))
  {
    var a := TryBlock(env, history, msg);
    var run := Handle(env, history, msg);
    if PublishInvoked(run.calls) {
      var i :| 0 <= i < |run.calls| && IsStickerCall(run.calls[i]);
      assert i < |a.calls| && a.calls[i] == run.calls[i];
    }
    if PublishInvoked(a.calls) {
      var i :| 0 <= i < |a.calls| && IsStickerCall(a.calls[i]);
      assert run.calls[i] == a.calls[i];
    }
  }

  /** Within the `try` block, publishing comes after the photo was fetched
      and fully tiled, the sender and the bot identified and the progress
      reply sent. */
  lemma TryPublishOrder(env: Env, history: seq<ApiCall>, msg: Message)
    ensures var a := TryBlock(env, history, msg);
      PublishInvoked(a.calls) ==>
        Tiled(env, history, msg) && HasUserId(msg.fromId) && HasUsername(env.server.username) &&
        a.written == TilePlan(env.tempDir, CheckImage(DownloadOf(env, msg.photo[|msg.photo| - 1].fileId).body).value) &&
        |a.calls| > 3 &&
        a.calls[..3] == [GetFile(msg.photo[|msg.photo| - 1].fileId), GetMe, SendMessage(ProgressText)] &&
        (forall i :: 0 <= i < |a.calls| && IsStickerCall(a.calls[i]) ==> 3 <= i)
  {
    TryStages(env, history, msg);
    var a := TryBlock(env, history, msg);
    if PublishInvoked(a.calls) {
      assert Tiled(env, history, msg);
      var getFile := GetFile(msg.photo[|msg.photo| - 1].fileId);
      var tiling := Tiling(DownloadOf(env, getFile.fileId).body, env.tempDir, [], env.disk);
      var o := AfterTiling(env.server, env.emoji, env.now, history + [getFile], msg.fromId, tiling.result.value);
      AfterTilingPublishes(env.server, env.emoji, env.now, history + [getFile], msg.fromId, tiling.result.value);
      PrependNonSticker(getFile, o.calls);
    }
  }

  /** Putting a call that publishes nothing in front of a run shifts its
      publishing calls by one place. */
  lemma PrependNonSticker(first: ApiCall, calls: seq<ApiCall>)
    requires !IsStickerCall(first)
    ensures PublishInvoked([first] + calls) <==> PublishInvoked(calls)
    ensures |calls| > 2 && calls[..2] == [GetMe, SendMessage(ProgressText)] &&
            (forall i :: 0 <= i < |calls| && IsStickerCall(calls[i]) ==> 2 <= i) ==>
      var c := [first] + calls;
      c[..3] == [first, GetMe, SendMessage(ProgressText)] &&
      (forall i :: 0 <= i < |c| && IsStickerCall(c[i]) ==> 3 <= i)
  {
    var c := [first] + calls;
    if PublishInvoked(c) {
      var i :| 0 <= i < |c| && IsStickerCall(c[i]);
      assert c[i] == calls[i - 1];
    }
    if PublishInvoked(calls) {
      var i :| 0 <= i < |calls| && IsStickerCall(calls[i]);
      assert c[i + 1] == calls[i];
    }
    forall i | 0 <= i < |c| && IsStickerCall(c[i])
      ensures 1 <= i && c[i] == calls[i - 1]
    {
    }
  }

  /** Nothing is published before the photo was fetched and fully tiled, the
      sender and the bot identified and the progress reply sent: the first
      three calls are those, and every tile is already on disk. */
  lemma PublishOnlyAfterProgress(env: Env, history: seq<ApiCall>, msg: Message)
    ensures var run := Handle(env, history, msg);
      PublishInvoked(run.calls) ==>
        Tiled(env, history, msg) && HasUserId(msg.fromId) && HasUsername(env.server.username) &&
        run.written == TilePlan(env.tempDir, CheckImage(DownloadOf(env, msg.photo[|msg.photo| - 1].fileId).body).value) &&
        |run.calls| > 3 &&
        run.calls[..3] == [GetFile(msg.photo[|msg.photo| - 1].fileId), GetMe, SendMessage(ProgressText)] &&
        (forall i :: 0 <= i < |run.calls| && IsStickerCall(run.calls[i]) ==> 3 <= i)
  {
    HandleCalls(env, history, msg);
    TryPublishOrder(env, history, msg);
    var a := TryBlock(env, history, msg);
    var run := Handle(env, history, msg);
    if PublishInvoked(run.calls) {
      assert run.calls[..3] == a.calls[..3];
      forall i | 0 <= i < |run.calls| && IsStickerCall(run.calls[i])
        ensures 3 <= i
      {
        assert run.calls[i] == a.calls[i];
      }
    }
  }

  /** Publishing starts whenever the `try` block ends in success or in a
      publishing error, and never when it stops at an earlier step. */
  lemma PublishReached(env: Env, history: seq<ApiCall>, msg: Message)
    ensures var a := TryBlock(env, history, msg);
      (a.result.Success? || a.result.error.PublishFailed? ==> PublishInvoked(Handle(env, history, msg).calls)) &&
      (a.result.Failure? && a.result.error in {NoPhoto, GetFileFailed, DownloadFailed, BadStatus, NoUserId, GetMeFailed, NoUsername} ==>
         !PublishInvoked(Handle(env, history, msg).calls)) &&
      (a.result.Failure? && a.result.error.TilingFailed? ==> !PublishInvoked(Handle(env, history, msg).calls))
  {
    HandleCalls(env, history, msg);
    TryPublishReached(env, history, msg);
  }

  lemma TryPublishReached(env: Env, history: seq<ApiCall>, msg: Message)
    ensures var a := TryBlock(env, history, msg);
      (a.result.Success? || a.result.error.PublishFailed? ==> PublishInvoked(a.calls)) &&
      (a.result.Failure? && a.result.error in {NoPhoto, GetFileFailed, DownloadFailed, BadStatus, NoUserId, GetMeFailed, NoUsername} ==>
         !PublishInvoked(a.calls)) &&
      (a.result.Failure? && a.result.error.TilingFailed? ==> !PublishInvoked(a.calls))
  {
    TryStages(env, history, msg);
    var a := TryBlock(env, history, msg);
    if Tiled(env, history, msg) {
      var getFile := GetFile(msg.photo[|msg.photo| - 1].fileId);
      var tiling := Tiling(DownloadOf(env, getFile.fileId).body, env.tempDir, [], env.disk);
      var o := AfterTiling(env.server, env.emoji, env.now, history + [getFile], msg.fromId, tiling.result.value);
      AfterTilingPublishes(env.server, env.emoji, env.now, history + [getFile], msg.fromId, tiling.result.value);
      PrependNonSticker(getFile, o.calls);
    } else {
      assert !PublishInvoked(a.calls);
    }
  }

  /** A reply other than the progress reply: the link to the pack, or the apology. */
  predicate IsOtherReply(c: ApiCall) {
    c.SendMessage? && c.text != ProgressText
  }

  /** After tiling, the progress reply is sent only once the sender and the
      bot are identified, right after `getMe`. */
  lemma AfterTilingProgress(server: Server, emoji: string, now: nat, history: seq<ApiCall>, fromId: Option<int>,
                            tilePaths: seq<string>)
    requires |tilePaths| > 0
    ensures var o := AfterTiling(server, emoji, now, history, fromId, tilePaths);
      SendMessage(ProgressText) in o.calls ==>
        HasUserId(fromId) && HasUsername(server.username) && server.accepts(history, GetMe) &&
        |o.calls| >= 2 && o.calls[..2] == [GetMe, SendMessage(ProgressText)]
  {
    var o := AfterTiling(server, emoji, now, history, fromId, tilePaths);
    if HasUserId(fromId) && server.accepts(history, GetMe) && HasUsername(server.username) {
      assert o.calls[..2] == [GetMe, SendMessage(ProgressText)];
    }
  }

  /** After tiling, the link reply is the only other reply and can only be
      the last call; a stage that sent it and still failed failed because the
      server refused that reply. */
  lemma AfterTilingLinkLast(server: Server, emoji: string, now: nat, history: seq<ApiCall>, fromId: Option<int>,
                            tilePaths: seq<string>)
    requires |tilePaths| > 0
    ensures var o := AfterTiling(server, emoji, now, history, fromId, tilePaths);
      forall i :: 0 <= i < |o.calls| && IsOtherReply(o.calls[i]) ==>
        i == |o.calls| - 1 &&
        (o.result.Failure? ==> o.result.error == ReplyFailed && !server.accepts(history + o.calls[..i], o.calls[i]))
  {
    var o := AfterTiling(server, emoji, now, history, fromId, tilePaths);
    if HasUserId(fromId) && server.accepts(history, GetMe) && HasUsername(server.username)
       && server.accepts(history + [GetMe], SendMessage(ProgressText)) {
      var config := StickerSetConfig(fromId.value, SetName(now, server.username.value), PackTitle, emoji);
      var publish := Publish(history + [GetMe, SendMessage(ProgressText)], config, tilePaths, emoji, server.accepts);
      var plan := PublishCalls(config, tilePaths, emoji);
      var before := [GetMe, SendMessage(ProgressText)] + publish.calls;
      assert forall i :: 0 <= i < |publish.calls| ==> publish.calls[i] == plan[i] && IsStickerCall(plan[i]);
      assert forall i :: 0 <= i < |before| ==> !IsOtherReply(before[i]);
      if publish.result.Success? {
        assert o.calls[..|before|] == before;
      }
    }
  }

  /** Within the `try` block, the progress reply comes third, after the photo
      was fetched and tiled and both identities were checked. */
  lemma TryProgress(env: Env, history: seq<ApiCall>, msg: Message)
    ensures var a := TryBlock(env, history, msg);
      SendMessage(ProgressText) in a.calls ==>
        Tiled(env, history, msg) && HasUserId(msg.fromId) && HasUsername(env.server.username) &&
        |a.calls| >= 3 && a.calls[..3] == [GetFile(msg.photo[|msg.photo| - 1].fileId), GetMe, SendMessage(ProgressText)]
  {
    TryStages(env, history, msg);
    var a := TryBlock(env, history, msg);
    if Tiled(env, history, msg) {
      var getFile := GetFile(msg.photo[|msg.photo| - 1].fileId);
      var tiling := Tiling(DownloadOf(env, getFile.fileId).body, env.tempDir, [], env.disk);
      var o := AfterTiling(env.server, env.emoji, env.now, history + [getFile], msg.fromId, tiling.result.value);
      AfterTilingProgress(env.server, env.emoji, env.now, history + [getFile], msg.fromId, tiling.result.value);
      if SendMessage(ProgressText) in a.calls {
        assert SendMessage(ProgressText) in o.calls;
        assert a.calls[..3] == [getFile] + o.calls[..2];
      }
    } else {
      assert SendMessage(ProgressText) !in a.calls;
    }
  }

  /** Within the `try` block, a reply other than the progress reply can only
      be the last call, and when the block failed after one, the reply
      failed. */
  lemma TryLinkLast(env: Env, history: seq<ApiCall>, msg: Message)
    ensures var a := TryBlock(env, history, msg);
      forall i :: 0 <= i < |a.calls| && IsOtherReply(a.calls[i]) ==>
        i == |a.calls| - 1 && (a.result.Failure? ==> a.result.error == ReplyFailed)
  {
    TryStages(env, history, msg);
    var a := TryBlock(env, history, msg);
    if Tiled(env, history, msg) {
      var getFile := GetFile(msg.photo[|msg.photo| - 1].fileId);
      var tiling := Tiling(DownloadOf(env, getFile.fileId).body, env.tempDir, [], env.disk);
      var o := AfterTiling(env.server, env.emoji, env.now, history + [getFile], msg.fromId, tiling.result.value);
      AfterTilingLinkLast(env.server, env.emoji, env.now, history + [getFile], msg.fromId, tiling.result.value);
      forall i | 0 <= i < |a.calls| && IsOtherReply(a.calls[i])
        ensures i == |a.calls| - 1
      {
        assert a.calls[i] == o.calls[i - 1];
      }
    }
  }

  /** Over a whole invocation, the progress reply is only sent as the third
      call, once the photo is tiled and both identities are checked; and
      when the `try` block failed, the only replies besides the progress
      reply are the apology, sent last, and possibly the link reply just
      before it, in which case sending the link reply is what failed. */
  lemma RepliesInOrder(env: Env, history: seq<ApiCall>, msg: Message)
    ensures var a := TryBlock(env, history, msg);
      var run := Handle(env, history, msg);
      (SendMessage(ProgressText) in run.calls ==>
         Tiled(env, history, msg) && HasUserId(msg.fromId) && HasUsername(env.server.username) &&
         |run.calls| >= 3 && run.calls[..3] == [GetFile(msg.photo[|msg.photo| - 1].fileId), GetMe, SendMessage(ProgressText)]) &&
      (a.result.Failure? ==>
         forall i :: 0 <= i < |run.calls| - 1 && IsOtherReply(run.calls[i]) ==>
           i == |run.calls| - 2 && a.result.error == ReplyFailed)
  {
    TryProgress(env, history, msg);
    TryLinkLast(env, history, msg);
    RepliesDistinct("");
    var a := TryBlock(env, history, msg);
    var run := Handle(env, history, msg);
    if a.result.Failure? {
      assert run.calls == a.calls + [SendMessage(ApologyText)];
      if SendMessage(ProgressText) in run.calls {
        assert SendMessage(ProgressText) in a.calls;
        assert run.calls[..3] == a.calls[..3];
      }
      forall i | 0 <= i < |run.calls| - 1 && IsOtherReply(run.calls[i])
        ensures i == |run.calls| - 2 && a.result.error == ReplyFailed
      {
        assert run.calls[i] == a.calls[i];
      }
    }
  }

  /** Tiles are written only once the photo was downloaded with an ok status
      and its size accepted, and they are always the first tiles of the plan
      for that size, in row-major order. */
  lemma WritesOnlyAfterDownload(env: Env, history: seq<ApiCall>, msg: Message)
    ensures var run := Handle(env, history, msg);
      run.written != [] ==>
        |msg.photo| > 0 &&
        (var download := DownloadOf(env, msg.photo[|msg.photo| - 1].fileId);
         download.Response? && download.ok && CheckImage(download.body).Success? &&
         run.written <= TilePlan(env.tempDir, CheckImage(download.body).value))
  {
  }

  /** The `try` block once `getFile` succeeded is that call followed by the
      rest of the block. */
  lemma TryAfterGetFile(env: Env, history: seq<ApiCall>, msg: Message)
    requires |msg.photo| > 0 && env.server.accepts(history, GetFile(msg.photo[|msg.photo| - 1].fileId))
    ensures var getFile := GetFile(msg.photo[|msg.photo| - 1].fileId);
      var rest := AfterGetFile(env, history + [getFile], getFile.fileId, msg.fromId);
      var a := TryBlock(env, history, msg);
      a.calls == [getFile] + rest.calls && a.written == rest.written && a.result == rest.result
  {
  }

  class PhotoHandler {
    const stickerSetService: StickerSetService
    const botToken: string

    constructor (stickerSetService: StickerSetService, botToken: string)
      ensures this.stickerSetService == stickerSetService && this.botToken == botToken
    {
      this.stickerSetService := stickerSetService;
      this.botToken := botToken;
    }

    method HandlePhotoMessage(msg: Message, now: nat, tempDir: string, disk: (seq<Tile>, Tile) -> bool,
                              removes: seq<Tile> -> bool, fetch: string -> Download)
      returns (raised: bool, processor: ImageProcessor)
      modifies stickerSetService.api
      ensures fresh(processor) && processor.tempDir == tempDir && processor.disk == disk && processor.removes == removes
      ensures processor.cleanups == 1
      ensures var run := Handle(Env(botToken, stickerSetService.defaultEmoji, stickerSetService.api.server,
                            processor.tempDir, processor.disk, fetch, now), old(stickerSetService.api.log), msg);
        stickerSetService.api.log == old(stickerSetService.api.log) + run.calls && raised == run.raised &&
        (removes(run.written) ==> processor.files == [] && !processor.dirExists) &&
        (!removes(run.written) ==> processor.files == run.written && processor.dirExists)
    {
      processor := new ImageProcessor(tempDir, disk, removes);
      var api := stickerSetService.api;
      var outcome := Try(processor, msg, now, fetch);
      raised := false;
      if outcome.Failure? {
        var ok := api.Invoke(SendMessage(ApologyText));
        raised := !ok;
      }
      processor.Cleanup();
    }

    method Try(processor: ImageProcessor, msg: Message, now: nat, fetch: string -> Download)
      returns (r: Result<string, HandlerError>)
      requires processor.files == []
      modifies stickerSetService.api, processor`files
      ensures var a := TryBlock(Env(botToken, stickerSetService.defaultEmoji, stickerSetService.api.server,
                            processor.tempDir, processor.disk, fetch, now), old(stickerSetService.api.log), msg);
        stickerSetService.api.log == old(stickerSetService.api.log) + a.calls && processor.files == a.written && r == a.result
    {
      var api := stickerSetService.api;
      ghost var history := api.log;
      ghost var env := Env(botToken, stickerSetService.defaultEmoji, api.server, processor.tempDir, processor.disk, fetch, now);
      if |msg.photo| == 0 {
        assert history + [] == history;
        return Failure(NoPhoto);
      }
      var photo := msg.photo[|msg.photo| - 1];
      var ok := api.Invoke(GetFile(photo.fileId));
      if !ok {
        return Failure(GetFileFailed);
      }
      r := FetchAndTile(processor, photo.fileId, msg.fromId, now, fetch);
      TryAfterGetFile(env, history, msg);
      AppendAssoc(history, [GetFile(photo.fileId)], AfterGetFile(env, history + [GetFile(photo.fileId)], photo.fileId, msg.fromId).calls);
    }

    /** The `try` block after `getFile`: fetching the file and checking the
        response, then tiling and publishing. */
    method FetchAndTile(processor: ImageProcessor, fileId: string, fromId: Option<int>, now: nat, fetch: string -> Download)
      returns (r: Result<string, HandlerError>)
      requires processor.files == []
      modifies stickerSetService.api, processor`files
      ensures var a := AfterGetFile(Env(botToken, stickerSetService.defaultEmoji, stickerSetService.api.server,
                            processor.tempDir, processor.disk, fetch, now), old(stickerSetService.api.log), fileId, fromId);
        stickerSetService.api.log == old(stickerSetService.api.log) + a.calls && processor.files == a.written && r == a.result
    {
      var fileUrl := FileUrl(botToken, stickerSetService.api.server.filePathOf(fileId));
      var response := fetch(fileUrl);
      if response.NetworkError? {
        return Failure(DownloadFailed);
      }
      if !response.ok {
        return Failure(BadStatus);
      }
      r := TileAndPublish(processor, response.body, fromId, now);
    }

    /** The `try` block after the download: tiling the image and, when
        that succeeds, publishing the pack. */
    method TileAndPublish(processor: ImageProcessor, body: Image, fromId: Option<int>, now: nat)
      returns (r: Result<string, HandlerError>)
      requires processor.files == []
      modifies stickerSetService.api, processor`files
      ensures var a := AfterDownload(stickerSetService.api.server, stickerSetService.defaultEmoji, now,
                                     processor.tempDir, processor.disk, old(stickerSetService.api.log), body, fromId);
        stickerSetService.api.log == old(stickerSetService.api.log) + a.calls && processor.files == a.written && r == a.result
    {
      var tilePaths := processor.ProcessImage(body);
      if tilePaths.Failure? {
        return Failure(TilingFailed(tilePaths.error));
      }
      r := PublishAndReport(fromId, tilePaths.value, now);
    }

    /** The part of the `try` block after tiling: identity checks, naming,
        the progress reply, publishing and the success reply. */
    method PublishAndReport(userId: Option<int>, tilePaths: seq<string>, now: nat) returns (r: Result<string, HandlerError>)
      requires |tilePaths| > 0
      modifies stickerSetService.api
      ensures var rest := AfterTiling(stickerSetService.api.server, stickerSetService.defaultEmoji, now, old(stickerSetService.api.log), userId, tilePaths);
        stickerSetService.api.log == old(stickerSetService.api.log) + rest.calls && r == rest.result
    {
      var api := stickerSetService.api;
      ghost var history := api.log;
      if !HasUserId(userId) {
        return Failure(NoUserId);
      }
      var ok := api.Invoke(GetMe);
      if !ok {
        return Failure(GetMeFailed);
      }
      var botUsername := api.server.username;
      if !HasUsername(botUsername) {
        return Failure(NoUsername);
      }
      var config := StickerSetConfig(userId.value, SetName(now, botUsername.value), PackTitle, stickerSetService.defaultEmoji);
      ok := api.Invoke(SendMessage(ProgressText));
      assert api.log == history + [GetMe, SendMessage(ProgressText)];
      if !ok {
        return Failure(ReplyFailed);
      }
      var setName := stickerSetService.CreateStickerSet(config, tilePaths);
      ghost var publish := Publish(history + [GetMe, SendMessage(ProgressText)], config, tilePaths, stickerSetService.defaultEmoji, api.server.accepts);
      assert api.log == history + ([GetMe, SendMessage(ProgressText)] + publish.calls);
      if setName.Failure? {
        return Failure(PublishFailed(setName.error));
      }
      var stickerSetUrl := PackUrl(setName.value);
      ok := api.Invoke(SendMessage(CreatedText(stickerSetUrl)));
      if !ok {
        return Failure(ReplyFailed);
      }
      r := Success(setName.value);
    }
  }
}
