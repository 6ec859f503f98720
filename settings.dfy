/** Settings reconciliation in BrowserSource::Update: the ten values read
    from the settings object, the local-file URL rewriting, and the upgrade
    of legacy `http://absolute/` URLs. Compile-time platform switches are
    the fields of a `Platform` record, and CefURIEncode is the function
    parameter `encode`. */
module Settings {
  import opened Wrappers
  import opened Text

  /** The build configuration: `_WIN32` and `ENABLE_LOCAL_FILE_URL_SCHEME`. */
  datatype Platform = Platform(windows: bool, localFileScheme: bool)

  /** What `obs_data_get_*` returns for the keys Update reads. */
  datatype Data = Data(
    isLocalFile: bool,   // "is_local_file"
    width: int,          // "width"
    height: int,         // "height"
    fpsCustom: bool,     // "fps_custom"
    fps: int,            // "fps"
    shutdown: bool,      // "shutdown"
    restartWhenActive: bool, // "restart_when_active"
    css: string,         // "css"
    url: string,         // "url"
    localFile: string,   // "local_file"
    rerouteAudio: bool)  // "reroute_audio"

  /** The ten fields a browser source keeps and compares on every Update. */
  datatype Snapshot = Snapshot(
    isLocal: bool,
    width: int,
    height: int,
    fpsCustom: bool,
    fps: int,
    shutdown: bool,
    restart: bool,
    rerouteAudio: bool,
    url: string,
    css: string)

  /** The `(int)` cast of a 64-bit settings integer: two's-complement wrap to 32 bits. */
  function Int32(x: int): (r: int)
    ensures -0x8000_0000 <= r < 0x8000_0000
    ensures (x - r) % 0x1_0000_0000 == 0
    ensures -0x8000_0000 <= x < 0x8000_0000 ==> r == x
  {
    (x + 0x8000_0000) % 0x1_0000_0000 - 0x8000_0000
  }

  const DriveColonEscape: string := "%3A"
  const BackslashEscape: string := "%5C"
  const SlashEscape: string := "%2F"
  const LegacyPrefix: string := "http://absolute/"

  /** The Windows step `n_url.replace(n_url.find("%3A"), 3, ":")` as written:
      when `%3A` is absent, `find` yields npos and `replace` throws
      std::out_of_range (None here). Otherwise only the first `%3A` changes. */
  function ReplaceDriveColonAsWritten(encoded: string): (r: Option<string>)
    ensures r.None? <==> !Contains(encoded, DriveColonEscape)
    ensures r.Some? ==> exists i :: && OccursAt(encoded, DriveColonEscape, i)
                                    && (forall j :: 0 <= j < i ==> !OccursAt(encoded, DriveColonEscape, j))
                                    && r.value == ReplaceAt(encoded, i, 3, ":")
  {
    match Find(encoded, DriveColonEscape)
    case None => None
    case Some(i) => Some(ReplaceAt(encoded, i, 3, ":"))
  }

  /** An empty local-file path (the setting left blank) encodes to the empty
      string, and the Windows step then throws. */
  lemma DriveColonThrowsOnEmptyPath()
    ensures ReplaceDriveColonAsWritten("") == None
  {
    assert !Contains("", DriveColonEscape);
  }

  /** The drive-colon step as intended: the first `%3A` becomes `:` when
      there is one, and the string is left alone when there is none. */
  function ReplaceDriveColon(encoded: string): (r: string)
    ensures !Contains(encoded, DriveColonEscape) ==> r == encoded
    ensures Contains(encoded, DriveColonEscape) ==>
              exists i :: && OccursAt(encoded, DriveColonEscape, i)
                          && (forall j :: 0 <= j < i ==> !OccursAt(encoded, DriveColonEscape, j))
                          && r == ReplaceAt(encoded, i, 3, ":")
  {
    match Find(encoded, DriveColonEscape)
    case None => encoded
    case Some(i) => ReplaceAt(encoded, i, 3, ":")
  }

  /** The corrected step agrees with the code wherever the code does not
      throw, and shortens the string by two when there is a `%3A`. */
  lemma ReplaceDriveColonRefinesAsWritten(encoded: string)
    ensures ReplaceDriveColonAsWritten(encoded).Some? ==> ReplaceDriveColonAsWritten(encoded).value == ReplaceDriveColon(encoded)
    ensures Contains(encoded, DriveColonEscape) ==> |ReplaceDriveColon(encoded)| == |encoded| - 2
  {
  }

  /** The scheme a local path is given: `http://absolute/` without local file
      URLs, `file:///` on Windows, `file://` elsewhere. */
  function LocalPrefix(platform: Platform): (p: string)
    ensures p == LegacyPrefix || p == "file:///" || p == "file://"
  {
    if !platform.localFileScheme then LegacyPrefix
    else if platform.windows then "file:///"
    else "file://"
  }

  /** The path part of a local-file URL: the drive colon restored on
      Windows, then every `%5C` and then every `%2F` turned into `/`. */
  function LocalPath(encoded: string, platform: Platform): (path: string)
    ensures !Contains(path, BackslashEscape) && !Contains(path, SlashEscape)
  {
    var p := if platform.windows then ReplaceDriveColon(encoded) else encoded;
    var once := ReplaceEvery(p, BackslashEscape, "/");
    assert Disjoint("/", BackslashEscape);
    ReplaceEveryPreservesAbsence(once, SlashEscape, "/", BackslashEscape);
    ReplaceEvery(once, SlashEscape, "/")
  }

  /** The URL Update builds for a local file from its encoded path. */
  function LocalFileUrl(encoded: string, platform: Platform): (url: string)
    ensures |LocalPrefix(platform)| <= |url| && url[..|LocalPrefix(platform)|] == LocalPrefix(platform)
    ensures url[|LocalPrefix(platform)|..] == LocalPath(encoded, platform)
  {
    LocalPrefix(platform) + LocalPath(encoded, platform)
  }

  /** The normalisation loops of Update, on the encoded path. */
  method NormalizeLocalFile(encoded: string, platform: Platform) returns (url: string)
    ensures url == LocalFileUrl(encoded, platform)
  {
    url := encoded;
    if platform.windows {
      url := ReplaceDriveColon(url);
    }
    url := ReplaceAll(url, BackslashEscape, "/");
    url := ReplaceAll(url, SlashEscape, "/");
    url := LocalPrefix(platform) + url;
  }

  lemma LegacyPrefixHasNoNul()
    ensures NoNul(LegacyPrefix) && |LegacyPrefix| == 16
  {
  }

  /** With local file URLs enabled, a URL beginning with `http://absolute/`
      in any case is rewritten to `file:///` and the source becomes local. */
  function UpgradeLegacyUrl(url: string, isLocal: bool, platform: Platform): (r: (string, bool))
    ensures platform.localFileScheme && StartsWithIgnoreCase(url, LegacyPrefix) ==>
              r == ("file:///" + url[|LegacyPrefix|..], true)
    ensures !(platform.localFileScheme && StartsWithIgnoreCase(url, LegacyPrefix)) ==>
              r == (url, isLocal)
  {
    LegacyPrefixHasNoNul();
    EqualIgnoreCaseNIsPrefixTest(url, LegacyPrefix);
    if platform.localFileScheme && EqualIgnoreCaseN(url, LegacyPrefix, 16) then
      ("file:///" + url[16..], true)
    else
      (url, isLocal)
  }

  /** The ten values Update compares and stores, from the settings object. */
  function Normalize(d: Data, platform: Platform, encode: string -> string): (s: Snapshot)
    ensures s.width == Int32(d.width) && s.height == Int32(d.height) && s.fps == Int32(d.fps)
    ensures s.fpsCustom == d.fpsCustom && s.shutdown == d.shutdown && s.restart == d.restartWhenActive
    ensures s.rerouteAudio == d.rerouteAudio && s.css == d.css
    ensures d.isLocalFile ==> s.url == LocalFileUrl(encode(d.localFile), platform) && s.isLocal
    ensures !d.isLocalFile && platform.localFileScheme && StartsWithIgnoreCase(d.url, LegacyPrefix) ==>
              s.url == "file:///" + d.url[|LegacyPrefix|..] && s.isLocal
    ensures !d.isLocalFile && !(platform.localFileScheme && StartsWithIgnoreCase(d.url, LegacyPrefix)) ==>
              s.url == d.url && !s.isLocal
  {
    var url := if d.isLocalFile then LocalFileUrl(encode(d.localFile), platform) else d.url;
    // A local-file URL under the file scheme starts with `f`, the legacy prefix with `h`.
    assert d.isLocalFile && platform.localFileScheme ==> url[0] == 'f' && LegacyPrefix[0] == 'h';
    var (u, local) := UpgradeLegacyUrl(url, d.isLocalFile, platform);
    Snapshot(local, Int32(d.width), Int32(d.height), d.fpsCustom, Int32(d.fps),
             d.shutdown, d.restartWhenActive, d.rerouteAudio, u, d.css)
  }

  /** With local file URLs enabled, no stored URL keeps the legacy prefix,
      and a local file always ends up with a `file://` URL. */
  lemma NoLegacyUrlSurvives(d: Data, platform: Platform, encode: string -> string)
    requires platform.localFileScheme
    ensures !StartsWithIgnoreCase(Normalize(d, platform, encode).url, LegacyPrefix)
    ensures d.isLocalFile ==> Normalize(d, platform, encode).isLocal
    ensures Normalize(d, platform, encode).isLocal ==> Normalize(d, platform, encode).url[..7] == "file://"
  {
    var s := Normalize(d, platform, encode);
    if s.isLocal {
      assert s.url[0] == 'f' && LegacyPrefix[0] == 'h';
    }
  }

  /** Without local file URLs, a local file is served through the
      `http://absolute/` mapping and the URL is never upgraded. */
  lemma LegacyMappingWithoutFileScheme(d: Data, platform: Platform, encode: string -> string)
    requires !platform.localFileScheme && d.isLocalFile
    ensures Normalize(d, platform, encode).url[..16] == LegacyPrefix
    ensures Normalize(d, platform, encode).isLocal
  {
  }
}
