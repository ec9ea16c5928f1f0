# Custom-emoji pack bot: a Dafny model

The bot receives a photo in a chat and turns it into a custom-emoji sticker pack. It does this in three stages:

- It downloads the largest variant of the photo.
- It cuts the photo into 100 x 100 pixel tiles, row by row, writing each tile to a temporary directory. Leftover pixels at the right and bottom edges are dropped.
- It publishes the tiles as a pack. The first tile creates the pack and every other tile is appended, one call at a time. The bot then replies with the pack's link. If anything fails, it replies with a fixed apology. At the end it always tries to remove the temporary directory. If the removal fails, the error is swallowed and the directory stays.

The model has seven modules, one file each:

- `ImageProcessing` (`image_processor.dfy`) models the tiler, `ImageProcessor`.
  - `CheckImage`, `GridOf` and `ValidateDimensions` are the size checks.
  - `TilePlan` is the ordered list of tiles: each tile's rectangle and file path.
  - `Tiling` specifies what `processImage` writes and returns.
  - `ImageProcessor` is a class. Its `files` field holds the tiles in the directory. `CreateTiles` is the nested loop, proved against `TilePlan`.
- `StickerSets` (`sticker_set_service.dfy`) models the publisher, `StickerSetService.createStickerSet`.
  - `PublishCalls` is the create-then-append call sequence of a fully successful run.
  - `Publish` is the run against a server that may refuse any call.
  - `CreateStickerSet` is the loop, proved to append exactly `Publish`'s calls to the API log.
- `PhotoHandling` (`photo_handler.dfy`) models `PhotoHandler.handlePhotoMessage`.
  - `TryBlock` is the `try` block's calls, written tiles and result, split into stages: `AfterGetFile`, `AfterDownload` and `AfterTiling`.
  - `Handle` is a whole invocation, including the apology.
  - `PhotoHandler` is a class. Its methods follow the same stages, and each is proved to append exactly its stage's calls to the log.
- `Telegram` (`telegram.dfy`) models the chat platform. Every API call, including each reply to the chat, is appended to a log in `BotApi`. The server decides whether a call succeeds from the calls made before it.
- `Sequencing` (`sequencing.dfy`) defines the "run steps in order until the first refusal" pattern that the tiler and the publisher share.
- `Text` (`text.dfy`) renders numbers as digits, in base 10 for the tile file names and in base 36 for the pack name's timestamp.
- `Wrappers` (`wrappers.dfy`) defines `Option` and `Result`.

Everything outside the program is an input:

- the server's answers: whether each call succeeds, the `file_path` that `getFile` reports, and the bot's username;
- the HTTP fetch, as a function from URL to response;
- whether the disk accepts each tile write;
- the clock;
- the temporary directory's name;
- the default emoji.

## Model

| member | source | states |
|---|---|---|
| ImageProcessing.GridOf | src/services/image-processor.ts:35-36 | the grid counts the whole tiles that fit: `tilesX * 100 <= width < (tilesX + 1) * 100`, and likewise for the height |
| ImageProcessing.ValidateDimensions | src/services/image-processor.ts:46-64 | the grid is accepted if and only if it has between 1 and 120 tiles; it is too small exactly when a side has no whole tile, and too large exactly when it has more than 120 tiles |
| ImageProcessing.CheckImage | src/services/image-processor.ts:17-38 | each error occurs if and only if its pixel condition holds: undecodable bytes; a missing or zero dimension; a side under 100 pixels; more than 120 tiles. An image is accepted if and only if both sides are at least 100 pixels and it has at most 120 tiles (exactly 120 is accepted). An accepted image yields the grid of its size, with 1 to 120 tiles |
| ImageProcessing.TilePathInjective | src/services/image-processor.ts:76 | `TilePath`: two cells with the same file path `dir/tile_x_y.png` are the same cell |
| ImageProcessing.PlanAt | src/services/image-processor.ts:74-76 | row-major order: entry `y * tilesX + x` of the plan is cell (x, y), with rectangle `(x*100, y*100, 100, 100)` and path `tile_x_y.png` |
| ImageProcessing.PlanMember | src/services/image-processor.ts:74-76 | every tile of the plan belongs to a cell of the grid |
| ImageProcessing.PlanCells | src/services/image-processor.ts:74-86 | `TilePlan` holds a tile if and only if it is `TileAt` of some cell of the grid |
| ImageProcessing.TilesDisjoint | src/services/image-processor.ts:79-86 | `TileAt`: the squares of two different cells do not overlap |
| ImageProcessing.PlanPathsDistinct | src/services/image-processor.ts:74-94 | no two tiles of the plan share a file path |
| ImageProcessing.PlanInsideImage | src/services/image-processor.ts:79-86 | every tile of an accepted image is a whole 100 x 100 square inside the image |
| ImageProcessing.Tiling | src/services/image-processor.ts:17-44 | a rejected image writes nothing and reports its error. A successful run writes the whole plan and returns its paths, `tilesX * tilesY` of them, between 1 and 120. Any run writes a prefix of the plan |
| ImageProcessing.TilingCompletes | src/services/image-processor.ts:17-99 | an accepted image whose every tile write succeeds is tiled completely: the whole plan is written and all its paths are returned |
| ImageProcessing.TilingStopsAt | src/services/image-processor.ts:79-94 | a write error means the image was accepted, the tiles before the refused one were all written and accepted, the refused tile is the one named, and nothing after it was tried |
| ImageProcessing.TwoByOneExample | src/services/image-processor.ts:35-86 | a 250 x 150 image gives a 2 x 1 grid whose tiles are the squares at (0, 0) and (100, 0), in that order |
| ImageProcessing.ImageProcessor.constructor | src/services/image-processor.ts:11-15 | a new processor has an empty existing directory and has never been cleaned up |
| ImageProcessing.ImageProcessor.ProcessImage | src/services/image-processor.ts:17-44 | the files added and the result are exactly those of `Tiling` |
| ImageProcessing.ImageProcessor.WriteTile | src/services/image-processor.ts:79-94 | the tile is stored if and only if the disk accepts it |
| ImageProcessing.ImageProcessor.CreateTiles | src/services/image-processor.ts:66-99 | the nested loop writes the plan in order until the first refused write. It returns all the paths, or the error naming the refused tile |
| ImageProcessing.ImageProcessor.Cleanup | src/services/image-processor.ts:101-110 | the cleanup count goes up by one and no error reaches the caller. If the removal oracle accepts, the directory and its files are gone. If it refuses, the directory and its files stay as they were, since the `catch` swallows the failed `rmSync` |
| Text.ParseDigits | src/handlers/photo-handler.ts:58 | reading back the digits of `n`, in base 10 or 36, gives `n` |
| Text.DigitsInjective | src/services/image-processor.ts:76 | different numbers have different digit strings |
| Sequencing.Completed | src/services/sticker-set-service.ts:41-55 | the count of leading steps that succeed: every step before it was accepted, and the step at it, if any, was refused |
| Telegram.BotApi.Invoke | src/services/sticker-set-service.ts:28-34 | stands for every API call of the model, including `getFile`, `getMe` and the replies at src/handlers/photo-handler.ts:23, :50, :67, :81 and :86: one API call is appended to the log; it succeeds if and only if the server accepts it after the earlier calls |
| StickerSets.PublishCalls | src/services/sticker-set-service.ts:21-55 | one call per tile. The first creates a custom-emoji set with the given title. All others append. Every call carries the config's user id and set name |
| StickerSets.PublishCallsUpload | src/services/sticker-set-service.ts:41-55 | the first `k` calls upload the first `k` tiles, in order, each as a static sticker with the one default emoji |
| StickerSets.Publish | src/services/sticker-set-service.ts:10-66 | the calls made are a prefix of the full sequence; on success the result is the config's set name |
| StickerSets.PublishSuccess | src/services/sticker-set-service.ts:20-61 | a successful run has exactly one create call, carrying tile 0, then one append call carrying tile i for each i >= 1. Every call was accepted, and every tile is uploaded once, in input order |
| StickerSets.PublishFailure | src/services/sticker-set-service.ts:62-65 | a failed run has the one generic error. Its last call was refused, every earlier call was accepted, and nothing comes after it. The tiles uploaded before the failure are exactly the leading tiles |
| StickerSets.PublishStopsAt | src/services/sticker-set-service.ts:41-65 | when the first `k` calls are accepted and the next is refused, the run issues exactly those `k + 1` calls and fails with the generic error |
| StickerSets.PublishCompletes | src/services/sticker-set-service.ts:28-61 | when every call is accepted, the run issues the full sequence and returns the set name |
| StickerSets.TwoTilesPublish | src/services/sticker-set-service.ts:21-55 | for two tiles the calls are the create call with the first tile, then one append of the second |
| StickerSets.StickerSetService.constructor | src/services/sticker-set-service.ts:8 | the publisher keeps the API client and the default emoji it is given; the emoji stands for `CONFIG.DEFAULT_EMOJI` |
| StickerSets.StickerSetService.CreateStickerSet | src/services/sticker-set-service.ts:10-66 | the API log grows by exactly `Publish`'s calls, and the result is `Publish`'s result |
| PhotoHandling.SetNameInjective | src/handlers/photo-handler.ts:58-61 | the timestamp and the bot username can both be recovered from the pack name |
| PhotoHandling.SetNameReadsBack | src/handlers/photo-handler.ts:58-61 | `SetName` reads back as `pack_`, the timestamp in base 36, `_by_` and the bot's username |
| PhotoHandling.LinkNamesPack | src/handlers/photo-handler.ts:74-83 | `PackUrl`: the link reply names exactly one pack |
| PhotoHandling.FileUrlPath | src/handlers/photo-handler.ts:23-24 | `FileUrl` identifies the file path the server reported; a missing path gives the same URL as the path "undefined" |
| PhotoHandling.RepliesDistinct | src/handlers/photo-handler.ts:67-88 | the progress reply, the link reply and the apology are three different texts |
| PhotoHandling.ApologyIffFailure | src/handlers/photo-handler.ts:84-88 | the apology is sent if and only if the `try` block failed. It is then the last call and is sent exactly once. A successful invocation never throws |
| PhotoHandling.TryStages | src/handlers/photo-handler.ts:22-41 | the `try` block reaches the stage after tiling exactly when the largest photo was fetched with an ok status and tiled completely. Otherwise it stops with an early error after at most the `getFile` call |
| PhotoHandling.AfterTilingSuccess | src/handlers/photo-handler.ts:43-83 | after tiling, success means the sender and the bot were identified. The calls were `getMe`, the progress reply, the full publish sequence and the link reply. The pack is named after the clock and the bot |
| PhotoHandling.AfterTilingCompletes | src/handlers/photo-handler.ts:43-83 | `AfterTiling`: once the sender and the bot are identified and every call is accepted, the stage makes `getMe`, the progress reply, one publish call per tile and the link reply, and succeeds with the pack named after the clock and the bot |
| PhotoHandling.AfterTilingErrors | src/handlers/photo-handler.ts:43-72 | after tiling, each identity error occurs if and only if its check fails, and a publishing error if and only if the publisher fails after the progress reply |
| PhotoHandling.AfterTilingPublishes | src/handlers/photo-handler.ts:43-72 | publishing starts only after both identity checks and the progress reply. It always starts when the stage ends in success or a publishing error, and never when it ends in an identity error |
| PhotoHandling.HandleCompletes | src/handlers/photo-handler.ts:14-92 | `TryBlock` and `Handle`: when the largest photo is fetched with an ok status, its size is accepted, every write and every call succeeds and both identities are present, the invocation writes the whole plan, makes the full call sequence, succeeds and sends no apology |
| PhotoHandling.HandleSuccess | src/handlers/photo-handler.ts:14-92 | a successful invocation fetched the largest photo and wrote the full tile plan. Its calls are exactly `getFile`, `getMe`, the progress reply, one publish call per tile in row-major order, and the link reply for the pack it named |
| PhotoHandling.HandleCalls | src/handlers/photo-handler.ts:84-88 | an invocation's calls are the `try` block's calls, then possibly the apology; the apology never publishes |
| PhotoHandling.TryPublishOrder | src/handlers/photo-handler.ts:22-72 | inside the `try` block, publishing happens only after the fetch, the full tiling, the identity checks and the progress reply |
| PhotoHandling.PublishOnlyAfterProgress | src/handlers/photo-handler.ts:41-72 | over a whole invocation, nothing is published unless the first three calls are `getFile`, `getMe` and the progress reply and every tile is already written |
| PhotoHandling.TryPublishReached | src/handlers/photo-handler.ts:29-72 | the `try` block publishes whenever it ends in success or a publishing error, and never when it stops at the download, status, tiling or identity steps |
| PhotoHandling.PublishReached | src/handlers/photo-handler.ts:29-72 | the same holds for the whole invocation |
| PhotoHandling.AfterTilingProgress | src/handlers/photo-handler.ts:43-67 | after tiling, the progress reply is sent only after both identity checks pass, right after `getMe` |
| PhotoHandling.AfterTilingLinkLast | src/handlers/photo-handler.ts:74-83 | after tiling, a reply other than the progress reply can only be the last call. If the stage still failed, that reply was refused |
| PhotoHandling.TryProgress | src/handlers/photo-handler.ts:22-67 | inside the `try` block, the progress reply is the third call and follows the full tiling and both identity checks |
| PhotoHandling.TryLinkLast | src/handlers/photo-handler.ts:74-88 | inside the `try` block, a non-progress reply can only be the last call; a failure after one is a failed reply |
| PhotoHandling.RepliesInOrder | src/handlers/photo-handler.ts:67-88 | over a whole invocation, the progress reply is sent only as the third call, after tiling and the identity checks. After a failure the only other replies are the apology, sent last, and possibly the link reply just before it, in which case that reply is what failed |
| PhotoHandling.WritesOnlyAfterDownload | src/handlers/photo-handler.ts:27-41 | tiles are written only after a download with an ok status of an image whose size is accepted, and they are a prefix of that image's plan |
| PhotoHandling.PhotoHandler.constructor | src/handlers/photo-handler.ts:7-12 | the handler keeps the publisher it is given |
| PhotoHandling.PhotoHandler.HandlePhotoMessage | src/handlers/photo-handler.ts:14-92 | the API log grows by exactly `Handle`'s calls and the method throws exactly when `Handle` says. A fresh processor is cleaned up exactly once, after the apology. If removal succeeds, no directory and no files remain. If it fails, the tiles written stay in the directory |
| PhotoHandling.PhotoHandler.Try | src/handlers/photo-handler.ts:16-83 | the log, the tiles written and the result are exactly those of `TryBlock` |
| PhotoHandling.PhotoHandler.FetchAndTile | src/handlers/photo-handler.ts:24-83 | the log, the tiles written and the result are those of the stage after `getFile` |
| PhotoHandling.PhotoHandler.TileAndPublish | src/handlers/photo-handler.ts:41-83 | the log, the tiles written and the result are those of the stage after the download |
| PhotoHandling.PhotoHandler.PublishAndReport | src/handlers/photo-handler.ts:43-83 | the log and the result are those of the stage after tiling |

## Left out

- Pixel work is not modelled: decoding, the PNG fallback when no format is detected, `extract` and PNG encoding. A decoded image is its optional width and height. The fallback changes no dimension, so it does not affect the grid.
- `mkdirSync`, `rmSync` and `tmpdir` are modelled only as state: the processor's `files` list, a `dirExists` flag and a `cleanups` counter. Whether `rmSync` succeeds is the oracle `removes`.
- ImageProcessing.ImageProcessor.Cleanup: a failed removal is all or nothing. A `rmSync` that deletes some tiles before failing is not modelled; the model keeps every file.
- A failing `mkdirSync` in the processor's constructor is not modelled. The processor is created outside the `try` block.
- The directory name is a parameter. The `os.tmpdir()` prefix, `CONFIG.TEMP_DIR_PREFIX` and `Date.now()` are not modelled.
- `path.join` is modelled as `dir + "/" + name`. Path normalisation is left out.
- The constants module `src/config/constants` is not part of this model. The tile size 100 and the 120-tile limit come from the error messages at src/services/image-processor.ts:50 and :61. `CONFIG.DEFAULT_EMOJI` is the `defaultEmoji` parameter of the publisher.
- `Date.now()` is the parameter `now`. The network, the disk and the chat server are oracles given as inputs.
- `response.arrayBuffer()` failing is not a separate case. A body that cannot be read or decoded is folded into `DecodeFailed`.
- Error texts, including `response.statusText`, are reduced to the `HandlerError`, `TileError` and `PublishError` constructors. The apology is the same whatever the error, so the text does not matter to the behaviour.
- `ctx.api`, which the handler uses, and `bot.api`, which the publisher uses, are modelled as one server with one log.
- Logging (`src/utils/logger.ts`), start-up (`src/index.ts`) and environment reading (`src/utils/env.ts`) are not part of this model.
- Asynchrony is not modelled: every `await` is a sequential step.
- JavaScript truthiness is modelled by `HasUserId` (absent or 0) and `HasUsername` (absent or empty).
- An empty photo array would throw a `TypeError` inside the `try` block. It is modelled as the `NoPhoto` error.
- The handler's unused `imageProcessor` constructor parameter is not modelled.
- StickerSets.StickerSetService.CreateStickerSet: requires at least one tile path. The only caller passes the result of a successful `processImage`, which always has at least one tile. The behaviour of `new InputFile(undefined)` on an empty list belongs to the chat library, which is not part of this model.
