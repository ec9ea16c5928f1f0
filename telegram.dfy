/** The remote chat platform as the bot sees it: every call the bot makes is
    appended to a log, and whether a call succeeds is decided by the server
    from the calls made before it. */
module Telegram {
  import opened Wrappers

  datatype StickerFormat = Static
  datatype StickerType = CustomEmoji

  /** One sticker to upload: the local file it is read from, its format and its emoji labels. */
  datatype InputSticker = InputSticker(sticker: string, format: StickerFormat, emojiList: seq<string>)

  datatype ApiCall =
    | GetFile(fileId: string)
    | GetMe
    | SendMessage(text: string)
    | CreateNewStickerSet(userId: int, name: string, title: string, stickers: seq<InputSticker>, stickerType: StickerType)
    | AddStickerToSet(userId: int, name: string, sticker: InputSticker)

  /** What the server answers: whether a call succeeds given the calls before
      it, the `file_path` that `getFile` reports for a file id, and the
      username that `getMe` reports for the bot. */
  datatype Server = Server(
    accepts: (seq<ApiCall>, ApiCall) -> bool,
    filePathOf: string -> Option<string>,
    username: Option<string>)

  class BotApi {
    const server: Server
    var log: seq<ApiCall>

    constructor (server: Server)
      ensures this.server == server && log == []
    {
      this.server := server;
      log := [];
    }

    /** Issues one call; `ok` is false when the call fails (the awaited promise rejects). */
    method Invoke(call: ApiCall) returns (ok: bool)
      modifies this`log
      ensures log == old(log) + [call]
      ensures ok == server.accepts(old(log), call)
    {
      ok := server.accepts(log, call);
      log := log + [call];
    }
  }
}
