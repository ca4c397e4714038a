/**
 * The metadata an upload run attaches to each file: a preferences record
 * built fresh per file from fixed defaults, then overridden field by field
 * from the environment (`VIDEO_NOTIFY_SUBSCRIBERS`, `VIDEO_TITLE`,
 * `VIDEO_DESCRIPTION`, `VIDEO_LICENSE`, `VIDEO_PRIVACY`).
 *
 * The environment is a map from variable names to their string values; the
 * clock readings that date each upload are passed in as already formatted
 * strings. Values are copied into the record without validation, as the
 * source casts them, so license, privacy and an overridden notify flag stay
 * raw strings.
 */
module Upload {
  import opened FileSize

  type Env = map<string, string>

  const NotifyKey := "VIDEO_NOTIFY_SUBSCRIBERS"
  const TitleKey := "VIDEO_TITLE"
  const DescriptionKey := "VIDEO_DESCRIPTION"
  const LicenseKey := "VIDEO_LICENSE"
  const PrivacyKey := "VIDEO_PRIVACY"
  const UploadDirectoryKey := "UPLOAD_DIRECTORY_PATH"

  /** The notify flag: the boolean default, or the raw text cast over it. */
  datatype NotifyFlag = Flag(b: bool) | RawText(s: string)

  datatype Parameters = Parameters(notifySubscribers: NotifyFlag)
  datatype Snippet = Snippet(title: string, description: string)
  datatype Status = Status(license: string, privacy: string)
  datatype UploadPreferences = UploadPreferences(parameters: Parameters, snippet: Snippet, status: Status)

  /** The program's identity, quoted in every description. */
  datatype AppMetaData = AppMetaData(author: string, name: string, version: string, repository: string)

  const App := AppMetaData("warriordeere", "clipuploader", "0.2.1",
                           "https://github.com/warriordeere/clipuploader")

  /** The record every file starts from. */
  const Defaults := UploadPreferences(Parameters(Flag(false)),
                                      Snippet("default", "default"),
                                      Status("youtube", "private"))

  /** A directory entry: its name and its size in bytes. */
  datatype FileEntry = FileEntry(name: string, size: nat)

  /** The date and time read from the clock when a file's metadata is built. */
  datatype Stamp = Stamp(date: string, time: string)

  /** The truthiness of `process.env[key]`: present and not empty. */
  predicate IsSet(env: Env, key: string)
  {
    key in env && env[key] != ""
  }

  /** A title or description variable asks for the generated value. */
  predicate UsesDefault(env: Env, key: string)
  {
    !IsSet(env, key) || env[key] == "default"
  }

  /** An override applied only when its variable is set. */
  function SetOr(env: Env, key: string, fallback: string): string
  {
    if IsSet(env, key) then env[key] else fallback
  }

  /** A value that falls back when its variable is unset or `default`. */
  function ConfiguredOr(env: Env, key: string, fallback: string): string
  {
    if UsesDefault(env, key) then fallback else env[key]
  }

  /** The generated description body: the file's name and formatted size. */
  function MainText(file: string, size: nat, render: Renderer): string
  {
    "Original file name: " + file + ".\nFile Size: " + FileSizeString(size, DefaultDecimals, render) + "\n"
  }

  /** The upload-time line. */
  function Disclaimer(stamp: Stamp): string
  {
    "This file was uploaded automatically on " + stamp.date + " at " + stamp.time + "\n\n"
  }

  /** The attribution line naming the program, its author and repository. */
  function Attribution(): string
  {
    "Uploadscript: " + App.name + " v" + App.version + " from " + App.author
      + " is open-source and on GitHub: " + App.repository
  }

  /** What every description ends with. */
  function Tail(stamp: Stamp): string
  {
    Disclaimer(stamp) + Attribution()
  }

  /** The metadata for one file, as a value. */
  function Derive(env: Env, file: FileEntry, stamp: Stamp, render: Renderer): (r: UploadPreferences)
    ensures r.parameters.notifySubscribers ==
              if IsSet(env, NotifyKey) then RawText(env[NotifyKey]) else Flag(false)
    ensures UsesDefault(env, TitleKey) ==> r.snippet.title == file.name
    ensures !UsesDefault(env, TitleKey) ==> r.snippet.title == env[TitleKey]
    ensures UsesDefault(env, DescriptionKey) ==>
              r.snippet.description == MainText(file.name, file.size, render) + Disclaimer(stamp) + Attribution()
    ensures !UsesDefault(env, DescriptionKey) ==>
              r.snippet.description == env[DescriptionKey] + Disclaimer(stamp) + Attribution()
    ensures r.status.license == if IsSet(env, LicenseKey) then env[LicenseKey] else "youtube"
    ensures r.status.privacy == if IsSet(env, PrivacyKey) then env[PrivacyKey] else "private"
  {
    var notify := if IsSet(env, NotifyKey) then RawText(env[NotifyKey])
                  else Defaults.parameters.notifySubscribers;
    UploadPreferences(
      Parameters(notify),
      Snippet(ConfiguredOr(env, TitleKey, file.name),
              ConfiguredOr(env, DescriptionKey, MainText(file.name, file.size, render))
                + Disclaimer(stamp) + Attribution()),
      Status(SetOr(env, LicenseKey, Defaults.status.license),
             SetOr(env, PrivacyKey, Defaults.status.privacy)))
  }

  /**
   * The metadata for one file, built as the upload callback builds it: the
   * defaults first, then one guarded overwrite per field.
   */
  method BuildPreferences(env: Env, file: FileEntry, stamp: Stamp, render: Renderer)
    returns (meta: UploadPreferences)
    ensures meta == Derive(env, file, stamp, render)
  {
    meta := Defaults;
    if IsSet(env, NotifyKey) {
      meta := meta.(parameters := meta.parameters.(notifySubscribers := RawText(env[NotifyKey])));
    }
    if !IsSet(env, TitleKey) || env[TitleKey] == "default" {
      meta := meta.(snippet := meta.snippet.(title := file.name));
    } else {
      meta := meta.(snippet := meta.snippet.(title := env[TitleKey]));
    }
    var main := MainText(file.name, file.size, render);
    var dscl := Disclaimer(stamp);
    var atr := Attribution();
    if !IsSet(env, DescriptionKey) || env[DescriptionKey] == "default" {
      meta := meta.(snippet := meta.snippet.(description := main + dscl + atr));
    } else {
      meta := meta.(snippet := meta.snippet.(description := env[DescriptionKey] + dscl + atr));
    }
    if IsSet(env, LicenseKey) {
      meta := meta.(status := meta.status.(license := env[LicenseKey]));
    }
    if IsSet(env, PrivacyKey) {
      meta := meta.(status := meta.status.(privacy := env[PrivacyKey]));
    }
  }

  /** With none of the five variables set, the record is the defaults with a generated title and description. */
  lemma NoOverrides(env: Env, file: FileEntry, stamp: Stamp, render: Renderer)
    requires !IsSet(env, NotifyKey) && !IsSet(env, TitleKey) && !IsSet(env, DescriptionKey)
    requires !IsSet(env, LicenseKey) && !IsSet(env, PrivacyKey)
    ensures Derive(env, file, stamp, render) ==
              UploadPreferences(Parameters(Flag(false)),
                                Snippet(file.name, MainText(file.name, file.size, render) + Disclaimer(stamp) + Attribution()),
                                Status("youtube", "private"))
  {
  }

  /**
   * Two different files get the same title exactly when a title is
   * configured: then every file of a run carries it.
   */
  lemma TitlesAgree(env: Env, f: FileEntry, g: FileEntry, sf: Stamp, sg: Stamp, render: Renderer)
    requires f.name != g.name
    ensures Derive(env, f, sf, render).snippet.title == Derive(env, g, sg, render).snippet.title
            <==> !UsesDefault(env, TitleKey)
  {
  }

  /**
   * Every description ends with the upload-time line followed by the
   * attribution line, and what precedes them is the configured text or the
   * generated body.
   */
  lemma DescriptionEndsWithTail(env: Env, file: FileEntry, stamp: Stamp, render: Renderer)
    ensures var d := Derive(env, file, stamp, render).snippet.description;
            var head := if UsesDefault(env, DescriptionKey) then MainText(file.name, file.size, render)
                        else env[DescriptionKey];
            |d| == |head| + |Tail(stamp)| && d[..|head|] == head && d[|head|..] == Tail(stamp)
  {
    var head := if UsesDefault(env, DescriptionKey) then MainText(file.name, file.size, render)
                else env[DescriptionKey];
    SplitAfter(head, Disclaimer(stamp), Attribution());
  }

  /** A text built as `head + a + b` splits after `head` into `head` and `a + b`. */
  lemma SplitAfter(head: string, a: string, b: string)
    ensures var t := head + a + b;
            |t| == |head| + |a + b| && t[..|head|] == head && t[|head|..] == a + b
  {
  }

  /** The generated description tells files apart: it names the file. */
  lemma {:induction false} GeneratedDescriptionNamesFile(env: Env, f: FileEntry, g: FileEntry, stamp: Stamp, render: Renderer)
    requires UsesDefault(env, DescriptionKey)
    requires f.size == g.size
    requires Derive(env, f, stamp, render).snippet.description == Derive(env, g, stamp, render).snippet.description
    ensures f.name == g.name
  {
    var prefix := "Original file name: ";
    var mid := ".\nFile Size: ";
    var size := FileSizeString(f.size, DefaultDecimals, render);
    var rest := mid + size + "\n" + Disclaimer(stamp) + Attribution();
    Regroup(prefix, f.name, mid, size, Disclaimer(stamp), Attribution());
    Regroup(prefix, g.name, mid, size, Disclaimer(stamp), Attribution());
    CancelAround(prefix, f.name, g.name, rest);
  }

  /** Regrouping the generated description around the file name. */
  lemma Regroup(prefix: string, name: string, mid: string, size: string, dscl: string, atr: string)
    ensures prefix + name + mid + size + "\n" + dscl + atr == prefix + name + (mid + size + "\n" + dscl + atr)
  {
  }

  /** Equal texts with the same prefix and suffix have the same middle. */
  lemma CancelAround(prefix: string, a: string, b: string, rest: string)
    requires prefix + a + rest == prefix + b + rest
    ensures a == b
  {
    var t := prefix + a + rest;
    assert |a| == |b|;
    assert a == t[|prefix|..|prefix| + |a|];
  }

  /** Setting `VIDEO_NOTIFY_SUBSCRIBERS` changes only the notify flag, to the raw text. */
  lemma NotifyOverrideIsolated(env: Env, v: string, file: FileEntry, stamp: Stamp, render: Renderer)
    requires v != ""
    ensures Derive(env[NotifyKey := v], file, stamp, render) ==
              Derive(env - {NotifyKey}, file, stamp, render).(parameters := Parameters(RawText(v)))
  {
  }

  /** Setting `VIDEO_LICENSE` changes only the license, to the text as given. */
  lemma LicenseOverrideIsolated(env: Env, v: string, file: FileEntry, stamp: Stamp, render: Renderer)
    requires v != ""
    ensures Derive(env[LicenseKey := v], file, stamp, render) ==
              var r := Derive(env - {LicenseKey}, file, stamp, render);
              r.(status := r.status.(license := v))
  {
  }

  /** Setting `VIDEO_PRIVACY` changes only the privacy, to the text as given. */
  lemma PrivacyOverrideIsolated(env: Env, v: string, file: FileEntry, stamp: Stamp, render: Renderer)
    requires v != ""
    ensures Derive(env[PrivacyKey := v], file, stamp, render) ==
              var r := Derive(env - {PrivacyKey}, file, stamp, render);
              r.(status := r.status.(privacy := v))
  {
  }

  /** A variable set to the empty string acts as if it were absent. */
  lemma EmptyValueIsAbsent(env: Env, key: string, file: FileEntry, stamp: Stamp, render: Renderer)
    ensures Derive(env[key := ""], file, stamp, render) == Derive(env - {key}, file, stamp, render)
  {
  }

  /** How an upload run ends once the directory has been listed. */
  datatype UploadRun =
    | MissingUploadDirectory
    | NoFiles
    | Dispatched(requests: seq<UploadPreferences>)

  /** The requests of a run: one freshly derived record per listed file. */
  function Requests(env: Env, files: seq<FileEntry>, stamps: seq<Stamp>, render: Renderer): (rs: seq<UploadPreferences>)
    requires |stamps| == |files|
    ensures |rs| == |files|
  {
    seq(|files|, j requires 0 <= j < |files| => Derive(env, files[j], stamps[j], render))
  }

  /**
   * The run over a directory listing: the directory variable must be set and
   * the listing non-empty; then every file's record is built in turn.
   */
  method PlanUploads(env: Env, files: seq<FileEntry>, stamps: seq<Stamp>, render: Renderer)
    returns (run: UploadRun)
    requires |stamps| == |files|
    ensures run == MissingUploadDirectory <==> !IsSet(env, UploadDirectoryKey)
    ensures run == NoFiles <==> IsSet(env, UploadDirectoryKey) && files == []
    ensures run.Dispatched? ==> run.requests == Requests(env, files, stamps, render)
  {
    if !IsSet(env, UploadDirectoryKey) {
      return MissingUploadDirectory;
    }
    if |files| < 1 {
      return NoFiles;
    }
    var requests: seq<UploadPreferences> := [];
    for j := 0 to |files|
      invariant |requests| == j
      invariant forall k :: 0 <= k < j ==> requests[k] == Derive(env, files[k], stamps[k], render)
    {
      var meta := BuildPreferences(env, files[j], stamps[j], render);
      requests := requests + [meta];
    }
    run := Dispatched(requests);
  }

  /**
   * Across the requests of one run, license, privacy and the notify flag are
   * the same for every file, and so is the title whenever one is configured;
   * otherwise each title is its own file's name.
   */
  lemma RunIsUniform(env: Env, files: seq<FileEntry>, stamps: seq<Stamp>, render: Renderer, j: nat, k: nat)
    requires |stamps| == |files|
    requires j < |files| && k < |files|
    ensures var rs := Requests(env, files, stamps, render);
            rs[j].status == rs[k].status && rs[j].parameters == rs[k].parameters
            && (!UsesDefault(env, TitleKey) ==> rs[j].snippet.title == rs[k].snippet.title)
            && (UsesDefault(env, TitleKey) ==> rs[j].snippet.title == files[j].name)
  {
  }
}
