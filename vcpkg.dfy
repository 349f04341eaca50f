/**
 * The release publisher of the D++ build tools: it derives the version to
 * publish from the latest git tag, generates the vcpkg port recipe
 * (portfile.cmake) and manifest (vcpkg.json), runs a first build whose
 * failure reveals the archive's SHA512 sum, and guards the second,
 * publishing build on that first build.  External commands are modelled by
 * their output (an input string) and by an entry in a ghost trace of effects.
 */
module Packager {
  import opened Wrappers

  // ---------------------------------------------------------------------------
  // Tag and version

  /** `s` with every line feed removed. */
  function StripNewlines(s: string): (r: string)
    ensures '\n' !in r
    ensures forall c :: c != '\n' ==> multiset(r)[c] == multiset(s)[c]
  {
    if s == [] then ""
    else
      assert s == [s[0]] + s[1..];
      (if s[0] == '\n' then "" else [s[0]]) + StripNewlines(s[1..])
  }

  /** Removing line feeds distributes over concatenation, so the order of the other characters is kept. */
  lemma {:induction false} StripNewlinesAppend(a: string, b: string)
    ensures StripNewlines(a + b) == StripNewlines(a) + StripNewlines(b)
  {
    if a == [] {
      assert a + b == b;
    } else {
      assert (a + b)[1..] == a[1..] + b;
      StripNewlinesAppend(a[1..], b);
    }
  }

  /** A string without line feeds is left as it is; in particular stripping twice is stripping once. */
  lemma {:induction false} StripNewlinesKeepsClean(s: string)
    requires '\n' !in s
    ensures StripNewlines(s) == s
  {
    if s != [] {
      StripNewlinesKeepsClean(s[1..]);
    }
  }

  /** The version named by a tag: the tag with one leading `v` removed, if it has one. */
  function VersionFromTag(tag: string): (v: string)
    ensures |tag| - |v| == (if |tag| > 0 && tag[0] == 'v' then 1 else 0)
    ensures v == tag[|tag| - |v|..]
  {
    if |tag| > 0 && tag[0] == 'v' then tag[1..] else tag
  }

  /** Only one `v` is removed: the version of `v` + x is x, whatever x starts with. */
  lemma VersionOfVTag(x: string)
    ensures VersionFromTag("v" + x) == x
  {
  }

  /** Putting the `v` back in front of the version gives the tag again. */
  lemma TagFromVersion(tag: string)
    requires |tag| > 0 && tag[0] == 'v'
    ensures "v" + VersionFromTag(tag) == tag
  {
  }

  // ---------------------------------------------------------------------------
  // Text lines

  /** `line` occurs in `text` as a whole line, delimited by line feeds or the ends of the text. */
  ghost predicate HasLine(text: string, line: string) {
    exists i, j :: 0 <= i <= j <= |text| && text[i..j] == line
      && (i == 0 || text[i - 1] == '\n') && (j == |text| || text[j] == '\n')
  }

  /** The text made of `lines`, each followed by a line feed except the last. */
  function JoinLines(lines: seq<string>): string {
    if |lines| == 0 then ""
    else if |lines| == 1 then lines[0]
    else lines[0] + "\n" + JoinLines(lines[1..])
  }

  lemma LineAtStart(line: string, rest: string)
    requires rest == [] || rest[0] == '\n'
    ensures HasLine(line + rest, line)
  {
    var t := line + rest;
    assert t[0..|line|] == line;
    if |line| < |t| {
      assert t[|line|] == rest[0];
    }
  }

  lemma LineAfter(head: string, rest: string, line: string)
    requires |head| > 0 && head[|head| - 1] == '\n'
    requires HasLine(rest, line)
    ensures HasLine(head + rest, line)
  {
    var i, j :| 0 <= i <= j <= |rest| && rest[i..j] == line
      && (i == 0 || rest[i - 1] == '\n') && (j == |rest| || rest[j] == '\n');
    var t := head + rest;
    var p := |head|;
    forall k | p + i <= k < p + j
      ensures t[k] == rest[k - p]
    {
    }
    assert t[p + i..p + j] == rest[i..j];
    assert t[p + i - 1] == if i == 0 then head[p - 1] else rest[i - 1];
    if j < |rest| {
      assert t[p + j] == rest[j];
    }
  }

  /** Every one of the joined lines is a line of the text. */
  lemma {:induction false} JoinedLine(lines: seq<string>, k: nat)
    requires k < |lines|
    ensures HasLine(JoinLines(lines), lines[k])
    decreases k
  {
    if |lines| == 1 {
      assert lines[0] + "" == lines[0];
      LineAtStart(lines[0], "");
    } else if k == 0 {
      var rest := "\n" + JoinLines(lines[1..]);
      assert JoinLines(lines) == lines[0] + rest;
      LineAtStart(lines[0], rest);
    } else {
      JoinedLine(lines[1..], k - 1);
      var head := lines[0] + "\n";
      assert JoinLines(lines) == head + JoinLines(lines[1..]);
      LineAfter(head, JoinLines(lines[1..]), lines[k]);
    }
  }

  // ---------------------------------------------------------------------------
  // The portfile

  /** The SHA512 sum given to the first build, which no archive matches. */
  const DEFAULT_SHA512: string := "0"

  /** The portfile's lines before the REF line. */
  const PORTFILE_OPENING: seq<string> := [
    "vcpkg_from_github(",
    "    OUT_SOURCE_PATH SOURCE_PATH",
    "    REPO brainboxdotcc/DPP"]

  /** The portfile's lines after the SHA512 line; the final empty line makes the text end in a line feed. */
  const PORTFILE_CLOSING: seq<string> := [
    ")",
    "",
    "vcpkg_cmake_configure(",
    "    SOURCE_PATH \"${SOURCE_PATH}\"",
    "    DISABLE_PARALLEL_CONFIGURE",
    ")",
    "",
    "vcpkg_cmake_install()",
    "",
    "vcpkg_cmake_config_fixup(NO_PREFIX_CORRECTION)",
    "",
    "file(REMOVE_RECURSE \"${CURRENT_PACKAGES_DIR}/debug/share/dpp\")",
    "file(REMOVE_RECURSE \"${CURRENT_PACKAGES_DIR}/debug/include\")",
    "",
    "if(VCPKG_LIBRARY_LINKAGE STREQUAL \"static\")",
    "    file(REMOVE_RECURSE \"${CURRENT_PACKAGES_DIR}/bin\" \"${CURRENT_PACKAGES_DIR}/debug/bin\")",
    "endif()",
    "",
    "file(",
    "    INSTALL \"${SOURCE_PATH}/LICENSE\"",
    "    DESTINATION \"${CURRENT_PACKAGES_DIR}/share/${PORT}\"",
    "    RENAME copyright",
    ")",
    "",
    "file(COPY \"${CMAKE_CURRENT_LIST_DIR}/usage\" DESTINATION \"${CURRENT_PACKAGES_DIR}/share/${PORT}\")",
    ""]

  /** The portfile line naming the git ref to fetch. */
  function RefLine(version: string): string {
    "    REF \"v" + version + "\""
  }

  /** The portfile line giving the archive's SHA512 sum. */
  function Sha512Line(sha512: string): string {
    "    SHA512 " + sha512
  }

  /** The portfile's lines: a fixed template whose fourth and fifth lines carry the version and the sum. */
  function PortfileLines(version: string, sha512: string): (ls: seq<string>)
    ensures |ls| == 31
    ensures ls[3] == RefLine(version) && ls[4] == Sha512Line(sha512)
  {
    PORTFILE_OPENING + [RefLine(version), Sha512Line(sha512)] + PORTFILE_CLOSING
  }

  /** Apart from the REF and SHA512 lines, every portfile is the same. */
  lemma PortfileFixedElsewhere(v1: string, s1: string, v2: string, s2: string)
    ensures forall k :: 0 <= k < 31 && k != 3 && k != 4 ==> PortfileLines(v1, s1)[k] == PortfileLines(v2, s2)[k]
  {
    var a, b := PortfileLines(v1, s1), PortfileLines(v2, s2);
    assert a[..3] == PORTFILE_OPENING == b[..3];
    assert a[5..] == PORTFILE_CLOSING == b[5..];
    forall k | 0 <= k < 31 && k != 3 && k != 4
      ensures a[k] == b[k]
    {
      if k < 3 {
        assert a[k] == a[..3][k];
        assert b[k] == b[..3][k];
      } else {
        assert a[k] == a[5..][k - 5];
        assert b[k] == b[5..][k - 5];
      }
    }
  }

  /** The portfile for `version` and `sha512`, which has the REF and SHA512 lines for them. */
  function PortfileText(version: string, sha512: string): (r: string)
    ensures HasLine(r, RefLine(version))
    ensures HasLine(r, Sha512Line(sha512))
  {
    var ls := PortfileLines(version, sha512);
    JoinedLine(ls, 3);
    JoinedLine(ls, 4);
    JoinLines(ls)
  }

  /** The portfile made with the default sum carries the line `    SHA512 0`. */
  lemma DefaultPortfileSum(version: string)
    ensures HasLine(PortfileText(version, DEFAULT_SHA512), "    SHA512 0")
  {
    assert Sha512Line(DEFAULT_SHA512) == "    SHA512 0";
  }

  /** For a `v`-prefixed tag, the portfile's REF line names the tag itself. */
  lemma PortfileNamesTag(tag: string, sha512: string)
    requires |tag| > 0 && tag[0] == 'v'
    ensures HasLine(PortfileText(VersionFromTag(tag), sha512), "    REF \"" + tag + "\"")
  {
    TagFromVersion(tag);
    assert RefLine(VersionFromTag(tag)) == "    REF \"" + tag + "\"";
  }

  // ---------------------------------------------------------------------------
  // JSON string encoding, as PHP's json_encode does it with its default flags

  /** An ASCII character from U+0020 up, DEL included: json_encode passes DEL through raw. */
  predicate IsAsciiFromSpace(c: char) {
    ' ' <= c && c as int < 0x80
  }

  /** A character json_encode copies unchanged. */
  predicate IsJsonPlain(c: char) {
    IsAsciiFromSpace(c) && c != '"' && c != '\\' && c != '/'
  }

  function HexDigit(d: int): (c: char)
    requires 0 <= d < 16
    ensures IsAsciiFromSpace(c)
  {
    if d < 10 then ('0' as int + d) as char else ('a' as int + d - 10) as char
  }

  /** Four lower-case hex digits of a 16-bit code unit. */
  function Hex4(n: int): (r: string)
    requires 0 <= n < 0x10000
    ensures |r| == 4 && forall i :: 0 <= i < 4 ==> IsAsciiFromSpace(r[i])
  {
    [HexDigit(n / 0x1000), HexDigit(n / 0x100 % 16), HexDigit(n / 16 % 16), HexDigit(n % 16)]
  }

  /** The JSON escape of one character; characters beyond U+FFFF become a UTF-16 surrogate pair. */
  function JsonEscapeChar(c: char): (r: string)
    ensures |r| >= 1 && forall i :: 0 <= i < |r| ==> IsAsciiFromSpace(r[i])
    ensures IsJsonPlain(c) ==> r == [c]
  {
    var n := c as int;
    if c == '"' then "\\\""
    else if c == '\\' then "\\\\"
    else if c == '/' then "\\/"
    else if n == 8 then "\\b"
    else if n == 12 then "\\f"
    else if c == '\n' then "\\n"
    else if c == '\r' then "\\r"
    else if c == '\t' then "\\t"
    else if n < 0x20 then "\\u" + Hex4(n)
    else if n < 0x80 then [c]
    else if n < 0x10000 then "\\u" + Hex4(n)
    else
      var m := n - 0x10000;
      "\\u" + Hex4(0xD800 + m / 0x400) + "\\u" + Hex4(0xDC00 + m % 0x400)
  }

  /** The body of a JSON string literal for `s`. */
  function JsonEscaped(s: string): (r: string)
    ensures forall i :: 0 <= i < |r| ==> IsAsciiFromSpace(r[i])
    ensures (forall i :: 0 <= i < |s| ==> IsJsonPlain(s[i])) ==> r == s
  {
    if s == [] then ""
    else
      var head := JsonEscapeChar(s[0]);
      var rest := JsonEscaped(s[1..]);
      assert forall i :: 0 <= i < |head + rest| ==> (head + rest)[i] == if i < |head| then head[i] else rest[i - |head|];
      assert (forall i :: 0 <= i < |s| ==> IsJsonPlain(s[i])) ==> head + rest == [s[0]] + s[1..] by {
        if forall i :: 0 <= i < |s| ==> IsJsonPlain(s[i]) {
          assert IsJsonPlain(s[0]);
          assert forall i :: 0 <= i < |s[1..]| ==> IsJsonPlain(s[1..][i]) by {
            forall i | 0 <= i < |s[1..]| ensures IsJsonPlain(s[1..][i]) {
              assert s[1..][i] == s[i + 1];
            }
          }
        }
      }
      assert s == [s[0]] + s[1..];
      head + rest
  }

  /**
   * json_encode of a string: a quoted, single-line ASCII literal with no control character below U+0020,
   * which is the string itself in quotes when no character needs escaping.
   */
  function JsonString(s: string): (r: string)
    ensures |r| >= 2 && r[0] == '"' && r[|r| - 1] == '"'
    ensures forall i :: 0 <= i < |r| ==> IsAsciiFromSpace(r[i])
    ensures (forall i :: 0 <= i < |s| ==> IsJsonPlain(s[i])) ==> r == "\"" + s + "\""
  {
    var body := JsonEscaped(s);
    var r := "\"" + body + "\"";
    assert forall i :: 0 <= i < |r| ==> r[i] == if i == 0 || i == |r| - 1 then '"' else body[i - 1];
    r
  }

  // ---------------------------------------------------------------------------
  // The manifest

  /** A manifest dependency: a plain port name, or a port needed as a host tool. */
  datatype Dependency = Port(name: string) | HostTool(name: string)

  /** The dependencies the manifest declares. */
  const DEPENDENCIES: seq<Dependency> := [
    Port("libsodium"), Port("nlohmann-json"), Port("openssl"), Port("opus"), Port("zlib"),
    HostTool("vcpkg-cmake"), HostTool("vcpkg-cmake-config")]

  const MANIFEST_NAME_LINE: string := "  \"name\": \"dpp\","

  /** The descriptive fields between the version line and the dependency array. */
  const MANIFEST_FIELD_LINES: seq<string> := [
    "  \"description\": \"D++ Extremely Lightweight C++ Discord Library.\",",
    "  \"homepage\": \"https://dpp.dev/\",",
    "  \"license\": \"Apache-2.0\",",
    "  \"supports\": \"((windows & !static & !uwp) | linux | osx)\","]

  const DEPENDENCIES_OPEN: string := "  \"dependencies\": ["

  /** The lines of the manifest's dependency array, as the template spells them. */
  const DEPENDENCY_LINES: seq<string> := [
    "    \"libsodium\",",
    "    \"nlohmann-json\",",
    "    \"openssl\",",
    "    \"opus\",",
    "    \"zlib\",",
    "    {",
    "      \"name\": \"vcpkg-cmake\",",
    "      \"host\": true",
    "    },",
    "    {",
    "      \"name\": \"vcpkg-cmake-config\",",
    "      \"host\": true",
    "    }"]

  /** The lines of one dependency entry; every entry but the last ends in a comma. */
  function DependencyLines(d: Dependency, last: bool): seq<string> {
    var comma := if last then "" else ",";
    match d
    case Port(n) => ["    \"" + n + "\"" + comma]
    case HostTool(n) => ["    {", "      \"name\": \"" + n + "\",", "      \"host\": true", "    }" + comma]
  }

  function DependenciesLines(ds: seq<Dependency>): seq<string> {
    if ds == [] then [] else DependencyLines(ds[0], |ds| == 1) + DependenciesLines(ds[1..])
  }

  function CountPorts(ds: seq<Dependency>): nat {
    if ds == [] then 0 else (if ds[0].Port? then 1 else 0) + CountPorts(ds[1..])
  }

  /** Each plain port renders as the template's line for it. */
  lemma PortsSpelled()
    ensures DependencyLines(Port("libsodium"), false) == ["    \"libsodium\","]
    ensures DependencyLines(Port("nlohmann-json"), false) == ["    \"nlohmann-json\","]
    ensures DependencyLines(Port("openssl"), false) == ["    \"openssl\","]
    ensures DependencyLines(Port("opus"), false) == ["    \"opus\","]
    ensures DependencyLines(Port("zlib"), false) == ["    \"zlib\","]
  {
    assert "    \"" + "libsodium" + "\"" + "," == "    \"libsodium\",";
    assert "    \"" + "nlohmann-json" + "\"" + "," == "    \"nlohmann-json\",";
    assert "    \"" + "openssl" + "\"" + "," == "    \"openssl\",";
    assert "    \"" + "opus" + "\"" + "," == "    \"opus\",";
    assert "    \"" + "zlib" + "\"" + "," == "    \"zlib\",";
  }

  /** Each host tool renders as the template's four lines for it. */
  lemma HostToolsSpelled()
    ensures DependencyLines(HostTool("vcpkg-cmake"), false)
         == ["    {", "      \"name\": \"vcpkg-cmake\",", "      \"host\": true", "    },"]
    ensures DependencyLines(HostTool("vcpkg-cmake-config"), true)
         == ["    {", "      \"name\": \"vcpkg-cmake-config\",", "      \"host\": true", "    }"]
  {
    assert "      \"name\": \"" + "vcpkg-cmake" + "\"," == "      \"name\": \"vcpkg-cmake\",";
    assert "      \"name\": \"" + "vcpkg-cmake-config" + "\"," == "      \"name\": \"vcpkg-cmake-config\",";
    assert "    }" + "," == "    },";
    assert "    }" + "" == "    }";
  }

  /**
   * The template's dependency array is exactly DEPENDENCIES: seven entries,
   * five plain ports and two host tools.
   */
  lemma {:induction false} TemplateListsDependencies()
    ensures DEPENDENCY_LINES == DependenciesLines(DEPENDENCIES)
    ensures |DEPENDENCIES| == 7 && CountPorts(DEPENDENCIES) == 5
  {
    var ds := DEPENDENCIES;
    assert DependenciesLines(ds[6..]) == DependencyLines(ds[6], true);
    assert DependenciesLines(ds[5..]) == DependencyLines(ds[5], false) + DependenciesLines(ds[6..]);
    assert DependenciesLines(ds[4..]) == DependencyLines(ds[4], false) + DependenciesLines(ds[5..]);
    assert DependenciesLines(ds[3..]) == DependencyLines(ds[3], false) + DependenciesLines(ds[4..]);
    assert DependenciesLines(ds[2..]) == DependencyLines(ds[2], false) + DependenciesLines(ds[3..]);
    assert DependenciesLines(ds[1..]) == DependencyLines(ds[1], false) + DependenciesLines(ds[2..]);
    assert DependenciesLines(ds) == DependencyLines(ds[0], false) + DependenciesLines(ds[1..]);
    var L := DEPENDENCY_LINES;
    PortsSpelled();
    HostToolsSpelled();
    assert L == L[0..1] + L[1..2] + L[2..3] + L[3..4] + L[4..5] + L[5..9] + L[9..];
    assert CountPorts(ds[5..]) == 0;
    assert CountPorts(ds) == 5;
  }

  /** The version line of the manifest. */
  function VersionLine(version: string): string {
    "  \"version\": " + JsonString(version) + ","
  }

  /**
   * The manifest's lines: the name "dpp", the JSON-encoded version, the fixed
   * descriptive fields, and the dependency array rendered from DEPENDENCIES.
   */
  function ManifestLines(version: string): (ls: seq<string>)
    ensures |ls| == 23
    ensures ls[0] == "{" && ls[1] == MANIFEST_NAME_LINE && ls[2] == VersionLine(version)
    ensures ls[7] == DEPENDENCIES_OPEN && ls[8..21] == DependenciesLines(DEPENDENCIES)
    ensures ls[21..] == ["  ]", "}"]
  {
    TemplateListsDependencies();
    var ls := ["{", MANIFEST_NAME_LINE, VersionLine(version)] + MANIFEST_FIELD_LINES
      + [DEPENDENCIES_OPEN] + DEPENDENCY_LINES + ["  ]", "}"];
    assert ls[8..21] == DEPENDENCY_LINES;
    ls
  }

  /** The manifest for `version`, which has the name line and the version line. */
  function ManifestText(version: string): (r: string)
    ensures HasLine(r, MANIFEST_NAME_LINE)
    ensures HasLine(r, VersionLine(version))
  {
    var ls := ManifestLines(version);
    JoinedLine(ls, 1);
    JoinedLine(ls, 2);
    JoinLines(ls)
  }

  /** With a version that needs no escaping, the manifest's version line is the version in quotes. */
  lemma ManifestQuotesPlainVersion(version: string)
    requires forall i :: 0 <= i < |version| ==> IsJsonPlain(version[i])
    ensures HasLine(ManifestText(version), "  \"version\": \"" + version + "\",")
  {
    assert VersionLine(version) == "  \"version\": \"" + version + "\",";
  }

  // ---------------------------------------------------------------------------
  // Extracting the checksum from the first build's output

  /** The text before the hash in vcpkg's checksum mismatch report. */
  const HASH_MARKER: string := "Actual hash:"

  /** The characters `\s` matches in a PCRE pattern without the u modifier. */
  predicate IsRegexSpace(c: char) {
    c == ' ' || c == '\t' || c == '\n' || c == '\r' || c as int == 11 || c as int == 12
  }

  predicate IsHexDigit(c: char) {
    '0' <= c <= '9' || 'a' <= c <= 'f' || 'A' <= c <= 'F'
  }

  /** The length of the longest run of whitespace starting at `i`. */
  function SpaceRun(s: string, i: nat): (n: nat)
    requires i <= |s|
    ensures i + n <= |s|
    ensures forall j :: i <= j < i + n ==> IsRegexSpace(s[j])
    ensures i + n < |s| ==> !IsRegexSpace(s[i + n])
    decreases |s| - i
  {
    if i < |s| && IsRegexSpace(s[i]) then 1 + SpaceRun(s, i + 1) else 0
  }

  /** The length of the longest run of hex digits starting at `i`. */
  function HexRun(s: string, i: nat): (n: nat)
    requires i <= |s|
    ensures i + n <= |s|
    ensures forall j :: i <= j < i + n ==> IsHexDigit(s[j])
    ensures i + n < |s| ==> !IsHexDigit(s[i + n])
    decreases |s| - i
  {
    if i < |s| && IsHexDigit(s[i]) then 1 + HexRun(s, i + 1) else 0
  }

  /** A maximal whitespace run of `n` characters at `i` is the one SpaceRun measures. */
  lemma {:induction false} SpaceRunIs(s: string, i: nat, n: nat)
    requires i + n <= |s|
    requires forall j :: i <= j < i + n ==> IsRegexSpace(s[j])
    requires i + n == |s| || !IsRegexSpace(s[i + n])
    ensures SpaceRun(s, i) == n
    decreases n
  {
    if n > 0 {
      SpaceRunIs(s, i + 1, n - 1);
    }
  }

  /** A maximal hex run of `n` characters at `i` is the one HexRun measures. */
  lemma {:induction false} HexRunIs(s: string, i: nat, n: nat)
    requires i + n <= |s|
    requires forall j :: i <= j < i + n ==> IsHexDigit(s[j])
    requires i + n == |s| || !IsHexDigit(s[i + n])
    ensures HexRun(s, i) == n
    decreases n
  {
    if n > 0 {
      HexRunIs(s, i + 1, n - 1);
    }
  }

  /**
   * The pattern `Actual hash:\s+([0-9a-fA-F]+)` matches at `i` with `w`
   * whitespace characters and captures `h`, the longest hex run there.
   */
  ghost predicate PatternWith(s: string, i: nat, w: nat, h: string) {
    var p := i + |HASH_MARKER|;
    && w >= 1 && |h| >= 1 && p + w + |h| <= |s|
    && s[i..p] == HASH_MARKER
    && (forall j :: p <= j < p + w ==> IsRegexSpace(s[j]))
    && s[p + w..p + w + |h|] == h
    && (forall j :: 0 <= j < |h| ==> IsHexDigit(h[j]))
    && (p + w + |h| == |s| || !IsHexDigit(s[p + w + |h|]))
  }

  ghost predicate PatternAt(s: string, i: nat, h: string) {
    exists w: nat :: PatternWith(s, i, w, h)
  }

  /** What the pattern captures when a match starts at `i`. */
  function MatchAt(s: string, i: nat): (r: Option<string>)
    ensures r.Some? ==> |r.value| >= 1 && forall j :: 0 <= j < |r.value| ==> IsHexDigit(r.value[j])
  {
    var p := i + |HASH_MARKER|;
    if p <= |s| && s[i..p] == HASH_MARKER then
      var w := SpaceRun(s, p);
      if w == 0 then None
      else
        var n := HexRun(s, p + w);
        if n == 0 then None else Some(s[p + w..p + w + n])
    else None
  }

  /** MatchAt implements the pattern: it captures `h` at `i` exactly when the pattern does. */
  lemma MatchAtIsPattern(s: string, i: nat, h: string)
    ensures MatchAt(s, i) == Some(h) <==> PatternAt(s, i, h)
  {
    if MatchAt(s, i) == Some(h) {
      MatchAtSound(s, i);
    }
    if PatternAt(s, i, h) {
      var w: nat :| PatternWith(s, i, w, h);
      MatchAtComplete(s, i, w, h);
    }
  }

  lemma MatchAtSound(s: string, i: nat)
    requires MatchAt(s, i).Some?
    ensures PatternWith(s, i, SpaceRun(s, i + |HASH_MARKER|), MatchAt(s, i).value)
  {
  }

  lemma MatchAtComplete(s: string, i: nat, w: nat, h: string)
    requires PatternWith(s, i, w, h)
    ensures MatchAt(s, i) == Some(h)
  {
    var p := i + |HASH_MARKER|;
    assert s[p + w] == h[0];
    SpaceRunIs(s, p, w);
    assert forall j :: p + w <= j < p + w + |h| ==> s[j] == h[j - (p + w)];
    HexRunIs(s, p + w, |h|);
  }

  /** The capture of the leftmost match at or after `from`, as preg_match finds it. */
  function FirstMatch(s: string, from: nat): (r: Option<string>)
    ensures r.Some? ==>
      exists i :: from <= i <= |s| && MatchAt(s, i) == r && forall j :: from <= j < i ==> MatchAt(s, j) == None
    ensures r.None? ==> forall j :: from <= j <= |s| ==> MatchAt(s, j) == None
    decreases |s| + 1 - from
  {
    if from > |s| then None
    else if MatchAt(s, from).Some? then MatchAt(s, from)
    else FirstMatch(s, from + 1)
  }

  /**
   * The checksum found in the build output is the capture of the leftmost
   * position where the pattern matches; when nothing is found, the pattern
   * matches nowhere.
   */
  lemma {:induction false} ChecksumIsLeftmostMatch(s: string)
    ensures FirstMatch(s, 0).Some? ==>
      exists i: nat :: PatternAt(s, i, FirstMatch(s, 0).value) && forall j: nat, h :: j < i ==> !PatternAt(s, j, h)
    ensures FirstMatch(s, 0).None? ==> forall i: nat, h :: !PatternAt(s, i, h)
  {
    var r := FirstMatch(s, 0);
    if r.Some? {
      var i :| 0 <= i <= |s| && MatchAt(s, i) == r && forall j :: 0 <= j < i ==> MatchAt(s, j) == None;
      MatchAtIsPattern(s, i, r.value);
      forall j: nat, h | j < i ensures !PatternAt(s, j, h) {
        MatchAtIsPattern(s, j, h);
      }
    } else {
      forall i: nat, h ensures !PatternAt(s, i, h) {
        if i <= |s| {
          MatchAtIsPattern(s, i, h);
        }
      }
    }
  }

  /** A checksum report with a run of spaces yields the hex digits after it. */
  lemma ChecksumExample()
    ensures FirstMatch("Actual hash:   ABCDEF0123", 0) == Some("ABCDEF0123")
  {
    var s := "Actual hash:   ABCDEF0123";
    assert PatternWith(s, 0, 3, "ABCDEF0123");
    MatchAtIsPattern(s, 0, "ABCDEF0123");
  }

  // ---------------------------------------------------------------------------
  // The publisher object

  /** The external commands the publisher runs, in the order of the source. */
  datatype Step =
    | DescribeLatestTag
    | MakeGlobalPortDir
    | CopyManifestToGlobal
    | CopyTempPortfileToGlobal
    | InstallPort
    | CopyPortfileToGlobal
    | CopyPortsToGlobal
    | FormatManifest
    | AddGlobal
    | CommitGlobal
    | AddVersion
    | CopyManifestBack
    | CopyBaselineBack
    | CopyVersionFileBack
    | AddLocal
    | CommitLocal
    | ConfigureMergePulls
    | Pull
    | PushMaster

  /** A side effect on the outside world. */
  datatype Effect = Run(step: Step) | Write(path: string, content: string) | Delete(path: string)


  const MANIFEST_PATH: string := "./vcpkg/ports/dpp/vcpkg.json"
  const PORTFILE_PATH: string := "./vcpkg/ports/dpp/portfile.cmake"
  const TEMP_PORTFILE_PATH: string := "/tmp/portfile"

  const MISSING_CREDENTIALS: string := "Missing github repository owner and access token\n"
  const NO_CHECKSUM: string := "No SHA512 sum is available, first build has not been run!"

  /**
   * The error PHP 8 raises for the one-argument `file_put_contents` call that
   * is meant to dump the build log after a failed install.
   */
  const LOG_DUMP_ERROR: string := "file_put_contents() expects at least 2 arguments, 1 given"

  function FirstBuildEffects(portfile: string): seq<Effect> {
    [Run(MakeGlobalPortDir), Run(CopyManifestToGlobal), Write(TEMP_PORTFILE_PATH, portfile),
     Run(CopyTempPortfileToGlobal), Delete(TEMP_PORTFILE_PATH), Run(InstallPort)]
  }

  function SecondBuildEffects(portfile: string): seq<Effect> {
    [Write(PORTFILE_PATH, portfile), Run(CopyManifestToGlobal), Run(CopyPortfileToGlobal),
     Run(CopyPortsToGlobal), Run(FormatManifest), Run(AddGlobal), Run(CommitGlobal), Run(AddVersion),
     Run(CopyManifestBack), Run(CopyBaselineBack), Run(CopyVersionFileBack),
     Run(AddLocal), Run(CommitLocal), Run(ConfigureMergePulls), Run(Pull), Run(PushMaster), Run(InstallPort)]
  }

  class Vcpkg {
    var latestTag: string
    var version: string
    /** Set once a first build has revealed the SHA512 sum; never cleared. */
    var firstBuildComplete: bool
    /** The side effects performed so far, oldest first. */
    ghost var effects: seq<Effect>

    ghost predicate Valid()
      reads this
    {
      '\n' !in latestTag && version == VersionFromTag(latestTag)
    }

    /** Starts from the output of the latest-tag query. */
    constructor (describeOutput: string)
      ensures Valid()
      ensures latestTag == StripNewlines(describeOutput)
      ensures !firstBuildComplete
      ensures effects == [Run(DescribeLatestTag)]
    {
      var tag := StripNewlines(describeOutput);
      latestTag := tag;
      version := VersionFromTag(tag);
      firstBuildComplete := false;
      effects := [Run(DescribeLatestTag)];
    }

    /**
     * The publisher's start-up: without at least one argument after the
     * script name it stops with a message; otherwise it queries the latest
     * tag, whose output is `describeOutput`.
     */
    static method Start(argv: seq<string>, describeOutput: string) returns (r: Result<Vcpkg, string>)
      ensures r.Failure? <==> |argv| < 2
      ensures r.Failure? ==> r.error == MISSING_CREDENTIALS
      ensures r.Success? ==> fresh(r.value) && r.value.Valid()
      ensures r.Success? ==> r.value.latestTag == StripNewlines(describeOutput)
      ensures r.Success? ==> !r.value.firstBuildComplete && r.value.effects == [Run(DescribeLatestTag)]
    {
      if |argv| < 2 {
        return Failure(MISSING_CREDENTIALS);
      }
      var p := new Vcpkg(describeOutput);
      return Success(p);
    }

    /** The version being published: the tag without its leading `v`. */
    function GetVersion(): (v: string)
      reads this
      requires Valid()
      ensures v == VersionFromTag(GetTag())
      ensures '\n' !in v
    {
      version
    }

    /** The tag being published, free of line feeds. */
    function GetTag(): (t: string)
      reads this
      requires Valid()
      ensures '\n' !in t
    {
      latestTag
    }

    /**
     * Writes the manifest for the current version and returns the portfile
     * for the current version and `sha512`, which defaults to DEFAULT_SHA512.
     */
    method ConstructPortAndVersionFile(sha512: string := DEFAULT_SHA512) returns (portfile: string)
      modifies this`effects
      ensures portfile == PortfileText(version, sha512)
      ensures effects == old(effects) + [Write(MANIFEST_PATH, ManifestText(version))]
    {
      portfile := PortfileText(version, sha512);
      effects := effects + [Write(MANIFEST_PATH, ManifestText(version))];
    }

    /**
     * Installs the portfile, runs the build (whose output is `buildResults`)
     * and returns the SHA512 sum reported there, or "" when there is none.
     */
    method FirstBuild(portFileContent: string, buildResults: string) returns (sha: string)
      modifies this`firstBuildComplete, this`effects
      ensures FirstMatch(buildResults, 0).Some? ==> sha == FirstMatch(buildResults, 0).value && firstBuildComplete
      ensures FirstMatch(buildResults, 0).None? ==> sha == "" && firstBuildComplete == old(firstBuildComplete)
      ensures sha != "" <==> FirstMatch(buildResults, 0).Some?
      ensures forall i :: 0 <= i < |sha| ==> IsHexDigit(sha[i])
      ensures effects == old(effects) + FirstBuildEffects(portFileContent)
    {
      effects := effects + FirstBuildEffects(portFileContent);
      var m := FirstMatch(buildResults, 0);
      if m.Some? {
        firstBuildComplete := true;
        return m.value;
      }
      return "";
    }

    /**
     * Publishes the portfile: refused, with no effect at all, before a first
     * build has found a sum; otherwise performs the publishing steps. When the
     * final install (exit code `installExitCode`) fails, the build-log dump
     * stops the run with PHP 8's argument-count error.
     */
    method SecondBuild(portFileContent: string, installExitCode: int) returns (r: Result<(), string>)
      modifies this`effects
      ensures !firstBuildComplete ==> r == Failure(NO_CHECKSUM) && effects == old(effects)
      ensures firstBuildComplete ==> effects == old(effects) + SecondBuildEffects(portFileContent)
      ensures firstBuildComplete ==> (r.Success? <==> installExitCode == 0)
      ensures firstBuildComplete && installExitCode != 0 ==> r == Failure(LOG_DUMP_ERROR)
    {
      if !firstBuildComplete {
        return Failure(NO_CHECKSUM);
      }
      effects := effects + SecondBuildEffects(portFileContent);
      if installExitCode != 0 {
        return Failure(LOG_DUMP_ERROR);
      }
      return Success(());
    }
  }
}
