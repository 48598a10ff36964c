# google-photos-playlist in Dafny

This project models the core of google-photos-playlist, a tool that reads a Google Photos album and renders its photos as a slideshow video. Each photo becomes a clip with a Ken Burns motion (a slow zoom or pan). Consecutive clips are joined by crossfades. In loop-friendly mode the video ends on the first photo again.

There are three parts.

- **Ken Burns generator** (`kenburns.dfy`, module `KenBurns`). This is `get_zoompan_filter`. The five motion presets are a datatype, and the random draw is a parameter. Each zoom or position expression is an expression tree. Its rendering is the text placed in the filter. Evaluating it gives the value of the expression for given values of `in`, `iw`, `ih` and `zoom`; the lemmas speak of that value at `in` = 0, at `in` = total_frames and in between. How ffmpeg binds these variables while it renders a clip is not modelled.
- **Timeline composer** (`video.dfy`, module `Video`). This is `assemble_video` plus the filter chain of `generate_clip`. `AssembleVideo` is a method with the loops of the source. It returns the plan of ffmpeg invocations that the source would run:
  - one render job per clip, with its clip path and filter chain;
  - then either a copy of the single clip, or one composition. The composition lists its inputs, the xfade chain, the filtergraph text and the mapped output label.
- **Album access** (`google_photos.dfy`, module `GooglePhotos`):
  - `parse_album_id` as a pure function over strings;
  - the paging loop of `fetch_album_photos`, as a method over the sequence of search responses.

Supporting modules:

- `Tokens` (`tokens.dfy`): a filter string is a sequence of tokens. A token is a character, a number written as a `float` (`Num`, a `real`) or a number written as an `int` (`Int`). Number formatting therefore stays abstract. The numbers are both the values the source formats into its strings and the few digits it writes literally: the `1.0` and the `2` and `1` of the motion expressions, and the `0` of `[0:v]`. A crossfade offset is a Python number (`Video.Number`): a float, or the int `0` when it is clamped, and it is written as a `Num` or an `Int` token accordingly. `Split` and `Join` are proved to round-trip, and from that the lemmas recover a string's structure: its stages, its options and its `;`-separated steps.
- `Decimal` (`decimal.dfy`): decimal digits and zero padding, for `clip_%04d.mp4`.
- `Wrappers` (`wrappers.dfy`): `Option` and `Result`.

Two places where the model follows the code:

- **Loop-friendly mode renders the first image twice.** The code appends the first image path, not the rendered clip. So the closing clip is rendered again and gets its own preset draw (`choose(k)`, k being the index of that last clip).
- **The crossfade offset is clamped.** The comment above the chain gives the offset of step i as `i*(duration - transition)`. The code also replaces a negative value by the int `0`, which the f-string writes as `0` rather than as a float, and so does `Video.Offset`.

## Model

| member | source | states |
|---|---|---|
| KenBurns.Truncate | src/gpp/kenburns.py:21 | `int()` of a float truncates toward zero: the result is within one of x, on the side of 0 |
| KenBurns.TotalFrames | src/gpp/kenburns.py:21 | total_frames is duration·fps truncated toward zero: for a non-negative product it is the largest integer not above it |
| KenBurns.TotalFramesExamples | src/gpp/kenburns.py:21 | 6 s at 30 fps is 180 frames; a duration shorter than one frame gives 0 frames |
| KenBurns.Fraction | src/gpp/kenburns.py:36-37 | a rule-of-thirds coordinate is 1/3 or 2/3 |
| KenBurns.MotionOf | src/gpp/kenburns.py:28-59 | the definition of the five presets' z, x and y expressions (no ensures of its own); what they render to and compute is stated by ShowAlphabet, MotionUnambiguous, ZoomEndpoints, ZoomMonotone, WindowMiddle, PanEndpoints and PanMirror |
| KenBurns.ZoompanFilter | src/gpp/kenburns.py:6-68 | the definition of `get_zoompan_filter`, with the random draws as the preset (no ensures of its own); its shape is stated by ZoompanFilterOptions, ZoompanFilterFields, ZoompanOptionKeys and ZoompanFilterIsOneStage |
| KenBurns.ShowAlphabet | src/gpp/kenburns.py:28-59 | a rendered motion expression contains, besides numbers, only the characters of `()+-*/` and `in`, `iw`, `ih`, `zoom`, so never a `:`, `,` or quote |
| KenBurns.MotionUnambiguous | src/gpp/kenburns.py:28-59 | every preset's z, x and y tree satisfies the precedence condition (a left operand binds at least as tightly as its operator, a right operand strictly tighter, no negative literal) under which its text without added parentheses denotes that tree |
| KenBurns.ZoompanFilterOptions | src/gpp/kenburns.py:61-68 | the filter is `zoompan=` followed by exactly the six options, separated by `:` |
| KenBurns.ZoompanFilterFields | src/gpp/kenburns.py:61-68 | splitting the filter at `:` gives back `z='…'`, `x='…'`, `y='…'` holding the preset's expressions, `d=` total_frames, `s=` width`x`height and `fps=` fps |
| KenBurns.ZoompanOptionKeys | src/gpp/kenburns.py:62-67 | the options are keyed z, x, y, d, s, fps, in that order |
| KenBurns.ZoompanFilterIsOneStage | src/gpp/kenburns.py:61-68 | the filter contains no `,`, so it is a single stage named zoompan in the clip filter chain |
| KenBurns.ProgressValue | src/gpp/kenburns.py:30 | `(in/T)` evaluates to in / total_frames |
| KenBurns.ProgressEnds | src/gpp/kenburns.py:30 | `(in/T)` is 0 at `in` = 0 and 1 at `in` = total_frames |
| KenBurns.ZoomRampAt | src/gpp/kenburns.py:30 | `1.0+a*(in/T)` evaluates to 1 + a·progress |
| KenBurns.ZoomBackAt | src/gpp/kenburns.py:44 | `{1+a}-a*(in/T)` evaluates to 1 + a − a·progress |
| KenBurns.HalfWindowValue | src/gpp/kenburns.py:31 | `(iw/zoom/2)` is half the visible window |
| KenBurns.CenteredValue | src/gpp/kenburns.py:31-32 | `iw/2-(iw/zoom/2)` puts the window's middle at the image's middle |
| KenBurns.AtThirdValue | src/gpp/kenburns.py:39-40 | `iw*t-(iw/zoom/2)` puts the window's middle at fraction t of the image |
| KenBurns.SlackValue | src/gpp/kenburns.py:52 | `(iw-iw/zoom)` evaluates to how far the window can travel |
| KenBurns.PanForwardAt | src/gpp/kenburns.py:52 | the left-to-right x is slack · progress |
| KenBurns.PanBackwardAt | src/gpp/kenburns.py:58 | the right-to-left x is slack · (1 − progress) |
| KenBurns.ZoomEndpoints | src/gpp/kenburns.py:24-59 | at `in` = 0 and `in` = total_frames the zoom is 1.0→1.15 for both zoom-in presets, 1.15→1.0 for zoom_out and 1.0→1.05 for both pans |
| KenBurns.ZoomMonotone | src/gpp/kenburns.py:24-59 | for `in` between those values the zoom moves monotonically in the preset's direction and stays within [1, 1 + amount], amount being 0.15, or 0.05 for the pans |
| KenBurns.WindowMiddle | src/gpp/kenburns.py:28-59 | the window's middle stays at the image centre for the two centred zooms and at the chosen thirds point for zoom_in_third; the pans keep it vertically centred |
| KenBurns.PanEndpoints | src/gpp/kenburns.py:48-58 | pan_lr's x goes from 0 to iw−iw/zoom, and pan_rl's goes from iw−iw/zoom to 0 |
| KenBurns.PanMirror | src/gpp/kenburns.py:52-58 | for every value of `in` the two pans' x positions add up to the slack: they mirror each other |
| Video.AssembleVideo | src/gpp/video.py:38-116 | fails exactly on an empty image list. Otherwise it renders one clip per image of the (loop-extended) sequence. With a single clip it copies that clip; otherwise it composes all clips as inputs, using the n−1 step xfade chain, its `;`-joined filtergraph and the `[vout]` map |
| Video.Sequence | src/gpp/video.py:57-59 | the definition of the images to render, loop-closed or not (no ensures of its own); LoopClosesOnFirstImage and LoopExample state what it gives |
| Video.RenderJobs | src/gpp/video.py:62-68 | one render job per image: job k renders image k to clip path k+1 with the filter of draw `choose(k)` for `duration` seconds; RenderClips is proved equal to it |
| Video.ClipFilterFor | src/gpp/video.py:25-31 | the definition of a clip's `-vf` chain (no ensures of its own); ClipFilterStages and ClipFilterSplit state its four stages |
| Video.RenderClips | src/gpp/video.py:61-68 | clip k is written to `workDir/clip_%04d.mp4` with number k+1, rendered from image k with that clip's filter chain and duration |
| Video.ClipPaths | src/gpp/video.py:64-68 | there is one clip path per image, and the k-th is numbered k+1 |
| Video.InputList | src/gpp/video.py:79-81 | the inputs are `-i clip` for each clip, in order |
| Video.CrossfadeChain | src/gpp/video.py:83-105 | the loop builds exactly the chain of crossfade steps, and the filtergraph is those steps joined with `;` |
| Video.Offset | src/gpp/video.py:96-98 | the definition of the offset of step i: the float i·duration − i·transition, or the int 0 when that is negative (no ensures of its own); OffsetIsClamped, ChainOffsets, OffsetsIncrease, OffsetStartsBeforeEnd, OffsetExample and ClampedOffsetExample state its value and kind |
| Video.Step | src/gpp/video.py:95-103 | the definition of xfade step i: its inputs, duration, offset and output label (no ensures of its own); ChainWiring states how the steps connect |
| Video.Chain | src/gpp/video.py:94-103 | the definition of the n−1 steps over n clips (no ensures of its own); CrossfadeChain is proved equal to it, and ChainWiring and ChainOffsets state its wiring and offsets |
| Video.Graph | src/gpp/video.py:101-105 | the definition of the filtergraph, the steps' texts joined with `;`, each offset written as a float or, when clamped, as the int 0 (no ensures of its own); GraphParts states that it splits back into the steps, and ClampedOffsetExample gives the text of a clamped step |
| Video.ClipFilterStages | src/gpp/video.py:25-31 | a clip's filter chain has exactly four stages, scale, pad, zoompan and format in that order, and the third is the Ken Burns filter at 1920x1080 |
| Video.ClipFilterSplit | src/gpp/video.py:29-31 | splitting the chain at `,` gives back the scale, pad, zoompan and format stages |
| Video.FixedStageNames | src/gpp/video.py:29-31 | the fixed stages are named scale, pad and format |
| Video.LoopClosesOnFirstImage | src/gpp/video.py:56-59 | loop-friendly with more than one image appends the first image once and keeps the rest; otherwise the sequence is unchanged, and it has one element exactly when the input has one |
| Video.LoopExample | src/gpp/video.py:56-99 | [A,B,C] loop-friendly becomes [A,B,C,A] and gives 3 crossfade steps |
| Video.ClipPathsDistinct | src/gpp/video.py:66 | different clip numbers give different clip paths |
| Video.ClipNameExample | src/gpp/video.py:66 | clips 1 and 12 are named clip_0001.mp4 and clip_0012.mp4 |
| Video.ChainWiring | src/gpp/video.py:94-103 | n clips give n−1 steps. The first step reads `[0:v]`, step k reads the previous step's output and `[k+1:v]`, every step uses the transition as its duration, outputs are `[v1]…` and the last is `[vout]`, and `[vout]` is never an input |
| Video.ChainOffsets | src/gpp/video.py:96-98 | step k's offset has the value max(0, (k+1)·(duration − transition)) |
| Video.OffsetIsClamped | src/gpp/video.py:96-98 | the offset's value is max(0, i·(duration − transition)); it is the int 0 exactly when i·(duration − transition) is negative, and a float otherwise |
| Video.OffsetsIncrease | src/gpp/video.py:88-98 | when transition < duration, offsets are floats, positive and strictly increasing |
| Video.CompositeLengthClosedForm | src/gpp/video.py:88-92 | after k crossfades the composite lasts duration + k·(duration − transition) |
| Video.OffsetStartsBeforeEnd | src/gpp/video.py:88-98 | when transition ≤ duration, step k starts exactly one transition before the end of the composite built so far |
| Video.ComposedLength | src/gpp/video.py:88-92 | n clips last n·duration − (n−1)·transition in total |
| Video.OffsetExample | src/gpp/video.py:96-98 | with duration 6 and transition 1.5 the offsets are the floats [4.5] for two clips and [4.5, 9.0] for three |
| Video.ClampedOffsetExample | src/gpp/video.py:94-105 | with duration 1 and transition 2, two clips give the single step `[0:v][1:v]xfade=transition=fade:duration=2.0:offset=0[vout]`, its offset the int 0 |
| Video.GraphParts | src/gpp/video.py:105 | splitting the filtergraph at `;` gives back one part per step, each that step's xfade text |
| Video.CrossfadeAvoids | src/gpp/video.py:101 | an xfade step's text has no `;` or `,` |
| Tokens.SplitJoin | src/gpp/video.py:105 | joining parts that do not contain the separator, then splitting, gives back the parts |
| Tokens.StageNameOf | src/gpp/video.py:29-31 | a stage `name=options` is named by what precedes its first `=` |
| Decimal.ValueOfDigits | src/gpp/video.py:66 | the decimal rendering of k denotes k |
| Decimal.PaddedValue | src/gpp/video.py:66 | the zero-padded rendering of k denotes k and is at least four digits long |
| Decimal.PaddedInjective | src/gpp/video.py:66 | distinct numbers have distinct padded renderings |
| Decimal.PaddedFourWide | src/gpp/video.py:66 | every clip number below 10000 is padded to exactly four digits |
| GooglePhotos.IdRun | src/gpp/google_photos.py:47 | `([A-Za-z0-9_-]+)` captures the longest prefix made of id characters |
| GooglePhotos.IdRunOf | src/gpp/google_photos.py:47 | an id followed by a non-id character is captured exactly |
| GooglePhotos.MatchUrl | src/gpp/google_photos.py:47-52 | the definition of one URL pattern as ParseAlbumId uses it (no ensures of its own); ShareUrl, AlbumUrl, AlbumIsNotShare, ParseOutcomes and the example lemmas state what it matches |
| GooglePhotos.ParseAlbumId | src/gpp/google_photos.py:41-60 | on success exactly one of album id and share token is set; a failure reports the input, and only input starting with "http" can fail |
| GooglePhotos.ShareUrl | src/gpp/google_photos.py:46-49 | `http(s)://photos.google.com/share/<token>` followed by a non-id character gives (None, token) |
| GooglePhotos.AlbumUrl | src/gpp/google_photos.py:51-54 | `http(s)://photos.google.com/album/<id>` followed by a non-id character gives (id, None) |
| GooglePhotos.AlbumIsNotShare | src/gpp/google_photos.py:47-52 | an album URL never matches the share pattern |
| GooglePhotos.RawId | src/gpp/google_photos.py:56-58 | input not starting with "http" is returned unchanged as the album id |
| GooglePhotos.ParseOutcomes | src/gpp/google_photos.py:41-60 | input is rejected exactly when it starts with "http" and matches neither pattern. A component taken from a URL is a non-empty run of id characters, and a raw id is the input itself |
| GooglePhotos.ShareExample | src/gpp/google_photos.py:46-49 | `https://photos.google.com/share/AF1Qip?key=x` gives share token AF1Qip |
| GooglePhotos.AlbumExample | src/gpp/google_photos.py:51-54 | `http://photos.google.com/album/AbC_1-z` gives album id AbC_1-z |
| GooglePhotos.RawExample | src/gpp/google_photos.py:56-58 | a raw id is kept as is |
| GooglePhotos.EmptyTokenExample | src/gpp/google_photos.py:47-60 | a share URL with an empty token is rejected |
| GooglePhotos.ForeignHostExample | src/gpp/google_photos.py:47-60 | a URL on another host is rejected |
| GooglePhotos.LastPage | src/gpp/google_photos.py:116-118 | the listing stops at the first response without a non-empty nextPageToken; every earlier response has one |
| GooglePhotos.SearchedAlbum | src/gpp/google_photos.py:83-86 | the definition of the album searched: the joined album for a share token, otherwise the parsed id (no ensures of its own); FetchAlbumPhotos's ensures uses it |
| GooglePhotos.Requests | src/gpp/google_photos.py:91-94 | every request asks for 100 items of the album; the first has no pageToken, and each later one carries the previous response's token |
| GooglePhotos.KeepPhotos | src/gpp/google_photos.py:104-114 | the inner loop keeps exactly the photo items of a page, converted and in order |
| GooglePhotos.ToPhoto | src/gpp/google_photos.py:108-114 | the definition of the record kept for a photo item (no ensures of its own); ToPhotoDefaults states its fields |
| GooglePhotos.Photos | src/gpp/google_photos.py:104-114 | one page's photos, never more than the page has items; KeepPhotos is proved equal to it, and PhotosSound, PhotosComplete, PhotosAppend and NoPhotos state which items it keeps and in what order |
| GooglePhotos.PagePhotos | src/gpp/google_photos.py:88-118 | the definition of the photos of several responses, response after response (no ensures of its own); ListAlbum is proved equal to it over the requested responses, and PagePhotosAppend states its order |
| GooglePhotos.FetchAlbumPhotos | src/gpp/google_photos.py:78-120 | fails exactly when the reference cannot be parsed. Otherwise it searches the joined album for a share token and the parsed id otherwise, and returns that album's listing |
| GooglePhotos.ListAlbum | src/gpp/google_photos.py:88-120 | the loop makes exactly the requests up to the first response without a nextPageToken, later responses are never requested, and the photos of the requested responses come back in order |
| GooglePhotos.PhotosAppend | src/gpp/google_photos.py:104-114 | filtering two runs of items is filtering each, in order |
| GooglePhotos.PagePhotosAppend | src/gpp/google_photos.py:88-118 | the photos of consecutive responses follow one another in response order |
| GooglePhotos.PhotosSound | src/gpp/google_photos.py:104-114 | every kept record comes from a photo item |
| GooglePhotos.PhotosComplete | src/gpp/google_photos.py:104-114 | every photo item is kept |
| GooglePhotos.NoPhotos | src/gpp/google_photos.py:104-107 | items without photo metadata (videos) contribute nothing |
| GooglePhotos.ToPhotoDefaults | src/gpp/google_photos.py:108-114 | id and baseUrl are copied; a missing width or height becomes 0 and a missing filename "unknown.jpg" |

## Left out

- Running ffmpeg (`_run_ffmpeg`, `subprocess`): the model produces the plan of invocations rather than running them. So a failing ffmpeg run, the `RuntimeError` it raises and the clip files it writes are not modelled.
- The codec arguments (`-c:v libx264 -preset medium -crf 20`, `-pix_fmt yuv420p`, `-c copy`, `-y`, `-loglevel`) are fixed constants of the command lines and are not part of the plan. The `-t` duration of each render is (`RenderJob.seconds`).
- `print` progress lines: output only.
- `tempfile.mkdtemp`: the working directory is the parameter `workDir`.
- `random.choice`: the preset draws are parameters. `choose(k)` is the preset of clip k, and `ZoomInThird` carries the two thirds draws.
- Float formatting and IEEE arithmetic. A rendered float is an abstract `Num` token holding a `real`, so how Python prints `1/3` or `4.5` is not modelled. Arithmetic is exact on reals.
- How ffmpeg binds `in`, `iw`, `ih` and `zoom` while it renders a clip. In ffmpeg's zoompan filter `in` counts input frames and `on` counts output frames. The lemmas state the value of each expression as a function of `in`, so they say nothing about how far `in` advances over the d frames rendered from the single still image given to each clip.
- ffmpeg's evaluation at a zero denominator. The expression strings are defined for any total_frames. The evaluation lemmas require total_frames ≥ 1, because with 0 frames every `in/0` has no value.
- Video.AssembleVideo: does not require transition < duration, because the source does not check it there (cli.py does) and the code's clamp to 0 is kept. The lemmas that need the ordering (`Video.OffsetsIncrease`, `Video.OffsetStartsBeforeEnd`) require it themselves.
- GooglePhotos.FetchAlbumPhotos: requires that some response has no nextPageToken. The responses are a finite sequence, so a server that never stops paging cannot be expressed.
- GooglePhotos.ListAlbum: has the same requirement, for the same reason.
- GooglePhotos.FetchAlbumPhotos: the album id returned by `sharedAlbums:join` is the parameter `joinedAlbumId`.
- HTTP (`requests.post`, `raise_for_status`, `_headers`), OAuth (`authenticate`) and the join call itself: network and credentials.
- The JSON shape. Records of the responses have typed fields. A missing `id` or `baseUrl` (a `KeyError` in the source) cannot occur, and width and height are already integers, so `int()` on a string is not modelled.
- downloader.py and cli.py: outside the core. This includes cli's `random.shuffle`, its argument checks and downloading the photos.
