# clipuploader: byte-size formatting and per-file upload metadata

clipuploader scans a directory and uploads every file in it as a video. This
project covers the two parts of `script.ts` that are rules rather than
input/output:

- **`fileSizeString`** turns a byte count into text such as `1.5 KiB`. It
  picks a binary unit (Bytes, KiB, MiB, GiB) and scales the count to it.
  Module `FileSize` (`file_size.dfy`) models the unit index exactly, as the
  largest `i` with `1024^i <= by`. It also models the zero case, the clamp
  of a negative decimal count to zero, and the label lookup. That lookup has
  no clamp: from 1024^4 bytes on it reads past the four-entry table, and the
  template literal prints `undefined`. The decimal rendering of `by / 1024^i`
  is a function-valued parameter, a `Renderer`.
- **The per-file metadata record** (`UploadPreferences` in
  `types/types.ts`) is built in the upload callback. It starts from fixed
  defaults (notify `false`, license `youtube`, privacy `private`). Then
  `VIDEO_NOTIFY_SUBSCRIBERS`, `VIDEO_TITLE`, `VIDEO_DESCRIPTION`,
  `VIDEO_LICENSE` and `VIDEO_PRIVACY` override it field by field. Module
  `Upload` (`upload.dfy`) states this in two ways:
  - `Derive` gives the record as a value.
  - `BuildPreferences` performs the callback's sequence of guarded
    overwrites and is proved equal to `Derive`.

  `PlanUploads` is the run over a directory listing. It checks the two early
  guards of `upload` and then builds one fresh record per file in a loop.

The environment is a `map<string, string>`. A variable counts as "set" when
it is present and non-empty, which is JavaScript truthiness of
`process.env[key]`. Each clock reading (`toLocaleDateString` and
`toLocaleTimeString`) is a pre-formatted `Stamp`. The code casts unvalidated
environment text into the license, privacy and notify fields, so those fields
are kept as raw strings. The notify field is either the boolean default or
the raw text (`NotifyFlag`).

Two points of the code are worth stating plainly:
- The code does not clamp the unit index. From 1024^4 bytes on, the label
  renders as `undefined` (see `FileSize.OutOfRangeRendering`).
- The license defaults to `youtube`, and `types/types.ts` allows `youtube`
  and `creativeCommon`. Any configured text is passed through unchanged.

## Model

| member | source | states |
|---|---|---|
| `FileSize.UnitIndex` | script.ts:92-96 | for a positive count, the index `i` satisfies `1024^i <= by < 1024^(i+1)`, so the scaled value `by / 1024^i` lies in [1, 1024) |
| `FileSize.UnitIndexUnique` | script.ts:96 | `i` is the unique exponent whose range `[1024^i, 1024^(i+1))` holds `by`, i.e. the exact integer logarithm base 1024 |
| `FileSize.UnitLabel` | script.ts:94 | a label exists exactly for indices below 4, and is then the `i`-th of Bytes, KiB, MiB, GiB |
| `FileSize.Decimals` | script.ts:93 | a negative decimal count becomes 0; a non-negative one is used unchanged |
| `FileSize.FileSizeString` | script.ts:90 | a zero byte count renders exactly as `0 Bytes` |
| `FileSize.InRangeRendering` | script.ts:92-98 | for `1024^i <= by < 1024^(i+1)` with `i < 4`, the text is the rendering of `by / 1024^i` followed by a space and the `i`-th label |
| `FileSize.OutOfRangeRendering` | script.ts:94-98 | from `1024^4` bytes on, the index is at least 4, no label exists and the text ends in ` undefined`; no larger unit is invented |
| `FileSize.WorkedSizes` | script.ts:89-99 | 1024 bytes and 1536 bytes are shown in KiB with divisor 1024, and 2^30 bytes in GiB with divisor 2^30 (quotients 1, 1.5 and 1) |
| `Upload.Derive` | script.ts:127-176 | notify is the raw configured text when set, else `false`; the title is the file name when `VIDEO_TITLE` is absent, empty or `default`, else the configured text; the description is the generated body or the configured text, followed by the upload-time line and the attribution line; license and privacy are the configured text when set, else `youtube` and `private` |
| `Upload.BuildPreferences` | script.ts:127-176 | starting from the defaults and applying the callback's guarded overwrites in order yields exactly the record `Derive` describes |
| `Upload.NoOverrides` | script.ts:127-139 | with none of the five variables set, the record is notify `false`, license `youtube`, privacy `private`, with the file name as title and the generated description |
| `Upload.TitlesAgree` | script.ts:145-150 | two files with different names get the same title if and only if a title is configured |
| `Upload.DescriptionEndsWithTail` | script.ts:157-168 | every description splits into a head (the configured text, or the generated body when the variable is absent, empty or `default`) followed by the upload-time line and the attribution line |
| `Upload.GeneratedDescriptionNamesFile` | script.ts:158-164 | with the generated description, two files of the same size dated by the same clock reading get equal descriptions only if their names are equal |
| `Upload.NotifyOverrideIsolated` | script.ts:141-143 | setting `VIDEO_NOTIFY_SUBSCRIBERS` to a non-empty value changes only the notify field, to that raw text |
| `Upload.LicenseOverrideIsolated` | script.ts:170-172 | setting `VIDEO_LICENSE` to a non-empty value changes only the license, to that text |
| `Upload.PrivacyOverrideIsolated` | script.ts:174-176 | setting `VIDEO_PRIVACY` to a non-empty value changes only the privacy, to that text |
| `Upload.EmptyValueIsAbsent` | script.ts:141-176 | a variable set to the empty string yields the same record as an absent one |
| `Upload.Requests` | script.ts:119-127 | a run derives exactly one record per listed file |
| `Upload.PlanUploads` | script.ts:104-176 | the run stops if `UPLOAD_DIRECTORY_PATH` is unset, and stops if the listing is empty; otherwise the k-th request is the record freshly derived for the k-th file, with nothing carried over between files |
| `Upload.RunIsUniform` | script.ts:119-176 | within one run, license, privacy and notify are the same for every file; a configured title is shared by all files, and otherwise each title is its own file's name |

## Left out

- `authClientAccess` and `userInput` are left out. They cover OAuth2 client construction, token file existence checks, reads and writes, JSON parsing of the stored token, and interactive console input: all input/output and foreign-library calls.
- The `videos.insert` call and its success and failure handlers are left out, including the source-file deletion when `ACTION_AFTER_UPLOAD` is `delete`. These are network and filesystem side effects.
- Directory listing, `fs.stat`, `path.join` with the home directory, and the listing-failure branch are left out. File names and sizes are inputs (`FileEntry`), and the path of each file is not modelled.
- The asynchronous, unawaited dispatch of each callback is left out: no concurrency and no ordering between uploads. `PlanUploads` builds the records one after another, and each record depends only on its own file and clock reading.
- `FileSize.FileSizeString`: the numeric text `parseFloat((by / 1024^i).toFixed(dm))` is a `Renderer` parameter, because floating-point rounding and formatting are not modelled. The unit index uses exact integer powers. `Math.floor(Math.log(by) / Math.log(1024))` in floating point may differ from that exact logarithm near exact powers of 1024.
- `FileSize.FileSizeString` takes a natural byte count (a file size), so JavaScript's behaviour for negative, fractional or NaN arguments is not modelled. The one caller passes `fs.stat` sizes.
- `FileSize.FileSizeString`: decimal counts above 100 are not modelled, nor are fractional ones. For counts above 100, `toFixed` throws a `RangeError`; a fractional count is truncated. The model always returns text, which is enough because the one caller (script.ts:158) uses the default of 2.
- Date and time formatting (`toLocaleDateString`, `toLocaleTimeString`) is left out: the formatted strings are inputs (`Stamp`), one per file, like the per-callback `new Date()`.
- dotenv loading, `NODE_ENV` selection of the configuration file, and all coloured console logging are left out; the environment is an input map.
