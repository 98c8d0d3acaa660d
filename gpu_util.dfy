/** GPU configuration helpers (gpu/config/gpu_util.cc): the per-feature
    status decisions, the parser for `;`-separated hexadecimal id lists,
    the secondary-GPU list built from the command line, and the one-shot
    caches of GPU information. The blacklist and driver-bug-list decisions
    are inputs. */
module GpuUtil {
  import opened Base

  /** A GPU device: its PCI ids and whether it is the active one. */
  datatype GpuDevice = GpuDevice(vendorId: U32, deviceId: U32, active: bool)

  datatype GpuInfo = GpuInfo(
    gpu: GpuDevice, secondaryGpus: seq<GpuDevice>,
    glVendor: string, glRenderer: string, glVersion: string)

  datatype GpuFeatureType =
    | Accelerated2dCanvas | GpuCompositing | AcceleratedWebgl | Flash3d | FlashStage3d
    | AcceleratedVideoDecode | FlashStage3dBaseline | GpuRasterization | AcceleratedWebgl2

  datatype GpuFeatureStatus = Enabled | Blacklisted | Disabled | Software | Undefined

  datatype Workaround = DisableD3D11 | DisableEs3GlContext | DisableDirectComposition | OtherWorkaround(id: int)

  datatype GpuFeatureInfo = GpuFeatureInfo(
    statusValues: map<GpuFeatureType, GpuFeatureStatus>,
    enabledWorkarounds: set<Workaround>)

  /** The switches this file reads. */
  datatype Switch =
    | DisableGpuRasterizationSwitch | EnableGpuRasterizationSwitch
    | GpuSecondaryVendorIdsSwitch | GpuSecondaryDeviceIdsSwitch

  /** The command line: the switches present and their values. */
  type CommandLine = map<Switch, string>

  function SwitchValue(commandLine: CommandLine, s: Switch): string {
    if s in commandLine then commandLine[s] else ""
  }

  // ---------------------------------------------------------------------
  // Feature status decisions

  /** Rasterization: the disable switch wins, then the enable switch, then
      the blacklist, then the field-trial feature. */
  function GetGpuRasterizationFeatureStatus(blacklisted: set<GpuFeatureType>, commandLine: CommandLine,
                                            defaultEnabled: bool): (r: GpuFeatureStatus)
    ensures r == Disabled <==>
              DisableGpuRasterizationSwitch in commandLine
              || (EnableGpuRasterizationSwitch !in commandLine && GpuRasterization !in blacklisted && !defaultEnabled)
    ensures r == Blacklisted <==>
              DisableGpuRasterizationSwitch !in commandLine && EnableGpuRasterizationSwitch !in commandLine
              && GpuRasterization in blacklisted
    ensures r in {Enabled, Blacklisted, Disabled}
  {
    if DisableGpuRasterizationSwitch in commandLine then Disabled
    else if EnableGpuRasterizationSwitch in commandLine then Enabled
    else if GpuRasterization in blacklisted then Blacklisted
    else if !defaultEnabled then Disabled
    else Enabled
  }

  /** WebGL and WebGL2: SwiftShader means Software, then the blacklist. */
  function GetWebGLFeatureStatus(blacklisted: set<GpuFeatureType>, useSwiftShader: bool): (r: GpuFeatureStatus)
    ensures r == Software <==> useSwiftShader
    ensures r == Blacklisted <==> !useSwiftShader && AcceleratedWebgl in blacklisted
    ensures r in {Software, Blacklisted, Enabled}
  {
    if useSwiftShader then Software
    else if AcceleratedWebgl in blacklisted then Blacklisted
    else Enabled
  }

  function GetWebGL2FeatureStatus(blacklisted: set<GpuFeatureType>, useSwiftShader: bool): (r: GpuFeatureStatus)
    ensures r == Software <==> useSwiftShader
    ensures r == Blacklisted <==> !useSwiftShader && AcceleratedWebgl2 in blacklisted
    ensures r in {Software, Blacklisted, Enabled}
  {
    if useSwiftShader then Software
    else if AcceleratedWebgl2 in blacklisted then Blacklisted
    else Enabled
  }

  /** 2D canvas: a blacklisted canvas falls back to Software, never to
      Blacklisted. */
  function Get2DCanvasFeatureStatus(blacklisted: set<GpuFeatureType>, useSwiftShader: bool): (r: GpuFeatureStatus)
    ensures r == Software <==> !useSwiftShader && Accelerated2dCanvas in blacklisted
    ensures r != Blacklisted
    ensures r in {Software, Enabled}
  {
    if useSwiftShader then Enabled
    else if Accelerated2dCanvas in blacklisted then Software
    else Enabled
  }

  /** The features SwiftShader forces to Enabled and the blacklist can
      otherwise turn to Blacklisted. */
  function BlacklistedUnlessSwiftShader(blacklisted: set<GpuFeatureType>, useSwiftShader: bool,
                                        feature: GpuFeatureType): (r: GpuFeatureStatus)
    ensures r == Blacklisted <==> !useSwiftShader && feature in blacklisted
    ensures r in {Blacklisted, Enabled}
  {
    if useSwiftShader then Enabled
    else if feature in blacklisted then Blacklisted
    else Enabled
  }

  /** Stage3D baseline is also blacklisted when plain Stage3D is. */
  function GetFlashStage3DBaselineFeatureStatus(blacklisted: set<GpuFeatureType>, useSwiftShader: bool): (r: GpuFeatureStatus)
    ensures r == Blacklisted <==>
              !useSwiftShader && (FlashStage3d in blacklisted || FlashStage3dBaseline in blacklisted)
    ensures r in {Blacklisted, Enabled}
  {
    if useSwiftShader then Enabled
    else if FlashStage3d in blacklisted || FlashStage3dBaseline in blacklisted then Blacklisted
    else Enabled
  }

  /** Video decode: SwiftShader disables it. */
  function GetAcceleratedVideoDecodeFeatureStatus(blacklisted: set<GpuFeatureType>, useSwiftShader: bool): (r: GpuFeatureStatus)
    ensures r == Disabled <==> useSwiftShader
    ensures r == Blacklisted <==> !useSwiftShader && AcceleratedVideoDecode in blacklisted
    ensures r in {Disabled, Blacklisted, Enabled}
  {
    if useSwiftShader then Disabled
    else if AcceleratedVideoDecode in blacklisted then Blacklisted
    else Enabled
  }

  /** The status table ComputeGpuFeatureInfo fills in (without the
      SwiftShader-for-WebGL shortcut), before the workaround adjustment. */
  function FeatureStatuses(blacklisted: set<GpuFeatureType>, commandLine: CommandLine,
                           useSwiftShader: bool, defaultEnabled: bool): map<GpuFeatureType, GpuFeatureStatus>
  {
    map[
      GpuRasterization := GetGpuRasterizationFeatureStatus(blacklisted, commandLine, defaultEnabled),
      AcceleratedWebgl := GetWebGLFeatureStatus(blacklisted, useSwiftShader),
      AcceleratedWebgl2 := GetWebGL2FeatureStatus(blacklisted, useSwiftShader),
      Accelerated2dCanvas := Get2DCanvasFeatureStatus(blacklisted, useSwiftShader),
      Flash3d := BlacklistedUnlessSwiftShader(blacklisted, useSwiftShader, Flash3d),
      FlashStage3d := BlacklistedUnlessSwiftShader(blacklisted, useSwiftShader, FlashStage3d),
      FlashStage3dBaseline := GetFlashStage3DBaselineFeatureStatus(blacklisted, useSwiftShader),
      AcceleratedVideoDecode := GetAcceleratedVideoDecodeFeatureStatus(blacklisted, useSwiftShader),
      GpuCompositing := BlacklistedUnlessSwiftShader(blacklisted, useSwiftShader, GpuCompositing)
    ]
  }

  /** Every feature gets a defined status. */
  lemma FeatureStatusesDefined(blacklisted: set<GpuFeatureType>, commandLine: CommandLine,
                               useSwiftShader: bool, defaultEnabled: bool, feature: GpuFeatureType)
    ensures var m := FeatureStatuses(blacklisted, commandLine, useSwiftShader, defaultEnabled);
              feature in m && m[feature] != Undefined
  {
  }

  /** With a DISABLE_D3D11 or DISABLE_ES3_GL_CONTEXT workaround WebGL2
      becomes Blacklisted; nothing else changes. */
  function AdjustGpuFeatureStatusToWorkarounds(info: GpuFeatureInfo): (r: GpuFeatureInfo)
    ensures r.enabledWorkarounds == info.enabledWorkarounds
    ensures DisableD3D11 in info.enabledWorkarounds || DisableEs3GlContext in info.enabledWorkarounds ==>
              AcceleratedWebgl2 in r.statusValues && r.statusValues[AcceleratedWebgl2] == Blacklisted
    ensures DisableD3D11 !in info.enabledWorkarounds && DisableEs3GlContext !in info.enabledWorkarounds ==> r == info
    ensures r.statusValues.Keys == info.statusValues.Keys + {AcceleratedWebgl2} || r == info
    ensures forall f :: f != AcceleratedWebgl2 && f in info.statusValues ==>
              f in r.statusValues && r.statusValues[f] == info.statusValues[f]
  {
    if DisableD3D11 in info.enabledWorkarounds || DisableEs3GlContext in info.enabledWorkarounds then
      info.(statusValues := info.statusValues[AcceleratedWebgl2 := Blacklisted])
    else info
  }

  /** Adjusting twice is adjusting once. */
  lemma AdjustIdempotent(info: GpuFeatureInfo)
    ensures AdjustGpuFeatureStatusToWorkarounds(AdjustGpuFeatureStatusToWorkarounds(info))
            == AdjustGpuFeatureStatusToWorkarounds(info)
  {
    var once := AdjustGpuFeatureStatusToWorkarounds(info);
    if DisableD3D11 in info.enabledWorkarounds || DisableEs3GlContext in info.enabledWorkarounds {
      assert once.statusValues[AcceleratedWebgl2 := Blacklisted] == once.statusValues;
    }
  }

  // ---------------------------------------------------------------------
  // Id lists

  const Separator: char := ';'

  /** ASCII whitespace, as TRIM_WHITESPACE strips it from 8-bit strings. */
  predicate IsWhitespace(c: char) {
    c == ' ' || c == '\t' || c == '\n' || c == 11 as char || c == 12 as char || c == '\r'
  }

  /** Strips leading whitespace: what remains is a suffix that starts with
      a non-whitespace character, and everything dropped is whitespace. */
  function TrimStart(s: string): (r: string)
    ensures |r| <= |s| && r == s[|s| - |r|..]
    ensures forall k :: 0 <= k < |s| - |r| ==> IsWhitespace(s[k])
    ensures r != [] ==> !IsWhitespace(r[0])
  {
    if s != [] && IsWhitespace(s[0]) then TrimStart(s[1..]) else s
  }

  /** Strips trailing whitespace, symmetrically. */
  function TrimEnd(s: string): (r: string)
    ensures |r| <= |s| && r == s[..|r|]
    ensures forall k :: |r| <= k < |s| ==> IsWhitespace(s[k])
    ensures r != [] ==> !IsWhitespace(r[|r| - 1])
  {
    if s != [] && IsWhitespace(s[|s| - 1]) then TrimEnd(s[..|s| - 1]) else s
  }

  /** TrimString(..., TRIM_WHITESPACE): both ends stripped. */
  function TrimWhitespace(s: string): (r: string)
    ensures |r| <= |s|
    ensures r != [] ==> !IsWhitespace(r[0]) && !IsWhitespace(r[|r| - 1])
  {
    var t := TrimStart(s);
    var r := TrimEnd(t);
    assert r != [] ==> r[0] == t[0];
    r
  }

  /** A string with no whitespace at either end is its own trim. */
  lemma TrimWhitespaceNoop(s: string)
    requires s == [] || (!IsWhitespace(s[0]) && !IsWhitespace(s[|s| - 1]))
    ensures TrimWhitespace(s) == s
  {
  }

  /** Trimming twice changes nothing. */
  lemma TrimWhitespaceIdempotent(s: string)
    ensures TrimWhitespace(TrimWhitespace(s)) == TrimWhitespace(s)
  {
    TrimWhitespaceNoop(TrimWhitespace(s));
  }

  /** The trim keeps the characters between its first and last
      non-whitespace ones: it is a slice of s with only whitespace around. */
  lemma {:induction false} TrimWhitespaceSlice(s: string)
    ensures var r := TrimWhitespace(s);
              var i := |s| - |TrimStart(s)|;
                i + |r| <= |s| && s[i..i + |r|] == r
                && (forall k :: 0 <= k < i ==> IsWhitespace(s[k]))
                && (forall k :: i + |r| <= k < |s| ==> IsWhitespace(s[k]))
  {
    var t := TrimStart(s);
    var r := TrimEnd(t);
    var i := |s| - |t|;
    assert t == s[i..];
    assert s[i..i + |r|] == t[..|r|];
    forall k | i + |r| <= k < |s|
      ensures IsWhitespace(s[k])
    {
      assert s[k] == t[k - i];
    }
  }

  /** The position of the first separator. */
  function FirstSeparator(s: string): (i: nat)
    requires Separator in s
    ensures i < |s| && s[i] == Separator && Separator !in s[..i]
  {
    if s[0] == Separator then 0
    else
      var i := FirstSeparator(s[1..]) + 1;
      assert s[..i] == [s[0]] + s[1..][..i - 1];
      i
  }

  /** The pieces between separators, empty ones kept (SPLIT_WANT_ALL). */
  function Pieces(s: string): (r: seq<string>)
    ensures |r| >= 1
    ensures forall k :: 0 <= k < |r| ==> Separator !in r[k]
    decreases |s|
  {
    if Separator !in s then [s]
    else
      var i := FirstSeparator(s);
      [s[..i]] + Pieces(s[i + 1..])
  }

  /** The pieces joined back with the separator. */
  function Join(pieces: seq<string>): string
    requires |pieces| >= 1
  {
    if |pieces| == 1 then pieces[0] else pieces[0] + [Separator] + Join(pieces[1..])
  }

  lemma JoinCons(head: string, tail: seq<string>)
    requires |tail| >= 1
    ensures Join([head] + tail) == head + [Separator] + Join(tail)
  {
    assert ([head] + tail)[1..] == tail;
  }

  /** Splitting then joining gives the string back. */
  lemma {:induction false} JoinPieces(s: string)
    ensures Join(Pieces(s)) == s
    decreases |s|
  {
    if Separator in s {
      var i := FirstSeparator(s);
      var tail := Pieces(s[i + 1..]);
      JoinPieces(s[i + 1..]);
      JoinCons(s[..i], tail);
      assert s == s[..i] + [Separator] + s[i + 1..];
    }
  }

  /** The first separator of head;rest is the one after head. */
  lemma JoinedSplit(head: string, rest: string)
    requires Separator !in head
    ensures var s := head + [Separator] + rest;
            Separator in s && FirstSeparator(s) == |head|
            && s[..|head|] == head && s[|head| + 1..] == rest
  {
    var s := head + [Separator] + rest;
    assert s[|head|] == Separator;
    assert s[..|head|] == head;
    assert s[|head| + 1..] == rest;
  }

  /** Joining then splitting gives the pieces back, when no piece holds a
      separator. */
  lemma {:induction false} PiecesJoin(pieces: seq<string>)
    requires |pieces| >= 1
    requires forall k :: 0 <= k < |pieces| ==> Separator !in pieces[k]
    ensures Pieces(Join(pieces)) == pieces
    decreases |pieces|
  {
    if |pieces| > 1 {
      var s := Join(pieces);
      var head := pieces[0];
      var rest := Join(pieces[1..]);
      assert s == head + [Separator] + rest;
      JoinedSplit(head, rest);
      PiecesJoin(pieces[1..]);
    }
  }

  /** SplitStringPiece(str, ";", TRIM_WHITESPACE, SPLIT_WANT_ALL): nothing
      for an empty string, otherwise every piece trimmed. */
  function SplitStringPiece(s: string): (r: seq<string>)
    ensures s == [] ==> r == []
    ensures s != [] ==> |r| == |Pieces(s)|
  {
    if s == [] then []
    else
      var pieces := Pieces(s);
      seq(|pieces|, k requires 0 <= k < |pieces| => TrimWhitespace(pieces[k]))
  }

  // ---------------------------------------------------------------------
  // Hexadecimal numbers

  function HexDigitValue(c: char): (r: Option<nat>)
    ensures r.Some? ==> r.value < 16
  {
    if '0' <= c <= '9' then Some(c as nat - '0' as nat)
    else if 'a' <= c <= 'f' then Some(c as nat - 'a' as nat + 10)
    else if 'A' <= c <= 'F' then Some(c as nat - 'A' as nat + 10)
    else None
  }

  /** A hex digit is neither whitespace, a separator nor an x. */
  lemma HexDigitIsPlain(c: char)
    requires HexDigitValue(c).Some?
    ensures !IsWhitespace(c) && c != Separator && c != 'x' && c != 'X'
  {
  }

  predicate IsHexDigits(s: string) {
    forall k :: 0 <= k < |s| ==> HexDigitValue(s[k]).Some?
  }

  /** The value of a string of hex digits, most significant first. */
  function HexValue(s: string): nat
    requires IsHexDigits(s)
  {
    if s == [] then 0
    else HexValue(s[..|s| - 1]) * 16 + HexDigitValue(s[|s| - 1]).value
  }

  /** HexStringToUInt: an optional 0x or 0X prefix, then at least one hex
      digit, with a value that fits in 32 bits. */
  function HexStringToUInt(s: string): Option<U32>
  {
    var digits := HexBody(s);
    if digits != [] && IsHexDigits(digits) && HexValue(digits) < TwoTo32 then Some(HexValue(digits)) else None
  }

  /** The string without its 0x prefix. */
  function HexBody(s: string): string
  {
    if |s| >= 2 && s[0] == '0' && (s[1] == 'x' || s[1] == 'X') then s[2..] else s
  }

  /** What it refuses: nothing after the prefix, a character that is not a
      hex digit, or a value of 2^32 or more. */
  lemma HexStringToUIntRejects(s: string, k: nat)
    ensures HexBody(s) == [] ==> HexStringToUInt(s) == None
    ensures k < |HexBody(s)| && HexDigitValue(HexBody(s)[k]).None? ==> HexStringToUInt(s) == None
    ensures IsHexDigits(HexBody(s)) && HexValue(HexBody(s)) >= TwoTo32 ==> HexStringToUInt(s) == None
  {
  }

  function HexChar(d: nat): (c: char)
    requires d < 16
    ensures HexDigitValue(c) == Some(d)
  {
    if d < 10 then ('0' as nat + d) as char else ('a' as nat + d - 10) as char
  }

  /** A reference formatter: lower-case hex digits, most significant first. */
  function HexDigits(n: nat): (r: string)
    ensures r != [] && IsHexDigits(r) && r[0] != 'x' && r[0] != 'X'
  {
    if n < 16 then [HexChar(n)] else HexDigits(n / 16) + [HexChar(n % 16)]
  }

  lemma {:induction false} HexValueOfDigits(n: nat)
    ensures HexValue(HexDigits(n)) == n
  {
    if n >= 16 {
      var s := HexDigits(n);
      assert s[..|s| - 1] == HexDigits(n / 16);
      HexValueOfDigits(n / 16);
    }
  }

  /** Formatting an id with the 0x prefix and parsing it back gives the id. */
  lemma HexRoundTrip(n: U32)
    ensures HexStringToUInt("0x" + HexDigits(n)) == Some(n)
  {
    var d := HexDigits(n);
    HexValueOfDigits(n);
    assert HexBody("0x" + d) == d;
  }

  /** So does formatting it without the prefix: a hex digit is never an x. */
  lemma HexRoundTripUnprefixed(n: U32)
    ensures HexStringToUInt(HexDigits(n)) == Some(n)
  {
    var d := HexDigits(n);
    HexValueOfDigits(n);
    if |d| >= 2 {
      HexDigitIsPlain(d[1]);
    }
    assert HexBody(d) == d;
  }

  /** The ids of the pieces, in order. Defined when every piece parses. */
  function ParsedIds(pieces: seq<string>): (r: seq<U32>)
    requires forall k :: 0 <= k < |pieces| ==> HexStringToUInt(pieces[k]).Some?
    ensures |r| == |pieces|
    ensures forall k :: 0 <= k < |pieces| ==> Some(r[k]) == HexStringToUInt(pieces[k])
  {
    seq(|pieces|, k requires 0 <= k < |pieces| => HexStringToUInt(pieces[k]).value)
  }

  /** Every piece of `s` holds an id (the source checks this in debug
      builds only). */
  predicate WellFormedIds(s: string) {
    forall k :: 0 <= k < |SplitStringPiece(s)| ==> HexStringToUInt(SplitStringPiece(s)[k]).Some?
  }

  /** The ids a well-formed list denotes, in order. */
  function IdsOf(s: string): (r: seq<U32>)
    requires WellFormedIds(s)
    ensures |r| == |SplitStringPiece(s)|
  {
    ParsedIds(SplitStringPiece(s))
  }

  /** StringToIds: appends one hex-parsed id per trimmed piece, in order. */
  method StringToIds(str: string, list: seq<U32>) returns (result: seq<U32>)
    requires WellFormedIds(str)
    ensures result == list + IdsOf(str)
  {
    var pieces := SplitStringPiece(str);
    result := AppendIds(pieces, list);
  }

  /** The loop of StringToIds over the already split pieces. */
  method AppendIds(pieces: seq<string>, list: seq<U32>) returns (result: seq<U32>)
    requires forall k :: 0 <= k < |pieces| ==> HexStringToUInt(pieces[k]).Some?
    ensures result == list + ParsedIds(pieces)
  {
    ghost var ids := ParsedIds(pieces);
    result := list;
    var i := 0;
    while i < |pieces|
      invariant 0 <= i <= |pieces|
      invariant result == list + ids[..i]
    {
      var parsed := HexStringToUInt(pieces[i]);
      assert ids[..i + 1] == ids[..i] + [parsed.value];
      result := result + [parsed.value];
      i := i + 1;
    }
    assert ids[..i] == ids;
  }

  /** A reference formatter for id lists: each id as 0x-prefixed hex. */
  function FormatIds(ids: seq<U32>): (r: seq<string>)
    ensures |r| == |ids| && forall k :: 0 <= k < |ids| ==> r[k] == "0x" + HexDigits(ids[k])
  {
    seq(|ids|, k requires 0 <= k < |ids| => "0x" + HexDigits(ids[k]))
  }

  /** A 0x-prefixed string of hex digits holds no separator. */
  lemma PrefixedHexHasNoSeparator(p: string, d: string)
    requires p == "0x" + d && IsHexDigits(d)
    ensures Separator !in p
  {
    forall j | 2 <= j < |p|
      ensures p[j] != Separator
    {
      assert p[j] == d[j - 2];
      HexDigitIsPlain(d[j - 2]);
    }
  }

  /** A 0x-prefixed string of hex digits has nothing to trim. */
  lemma PrefixedHexIsTrimmed(p: string, d: string)
    requires p == "0x" + d && d != [] && IsHexDigits(d)
    ensures TrimWhitespace(p) == p
  {
    HexDigitIsPlain(d[|d| - 1]);
    assert p[|p| - 1] == d[|d| - 1];
    TrimWhitespaceNoop(p);
  }

  /** One formatted id holds no separator, has no whitespace to trim and
      parses back to the id. */
  lemma FormattedIdPiece(n: U32)
    ensures Separator !in "0x" + HexDigits(n)
    ensures TrimWhitespace("0x" + HexDigits(n)) == "0x" + HexDigits(n)
    ensures HexStringToUInt("0x" + HexDigits(n)) == Some(n)
  {
    PrefixedHexHasNoSeparator("0x" + HexDigits(n), HexDigits(n));
    PrefixedHexIsTrimmed("0x" + HexDigits(n), HexDigits(n));
    HexRoundTrip(n);
  }

  /** Splitting joined pieces that hold no separator and need no trimming
      gives the pieces back. */
  lemma SplitJoinedPieces(pieces: seq<string>)
    requires |pieces| >= 1 && pieces[0] != []
    requires forall k :: 0 <= k < |pieces| ==> Separator !in pieces[k] && TrimWhitespace(pieces[k]) == pieces[k]
    ensures SplitStringPiece(Join(pieces)) == pieces
  {
    var s := Join(pieces);
    PiecesJoin(pieces);
    assert s != [] by {
      if |pieces| > 1 {
        assert s == pieces[0] + [Separator] + Join(pieces[1..]);
      }
    }
    var split := SplitStringPiece(s);
    forall k | 0 <= k < |pieces|
      ensures split[k] == pieces[k]
    {
      assert split[k] == TrimWhitespace(Pieces(s)[k]);
    }
  }

  /** Splitting a formatted id list gives back the formatted pieces. */
  lemma SplitFormattedIds(ids: seq<U32>)
    requires |ids| >= 1
    ensures SplitStringPiece(Join(FormatIds(ids))) == FormatIds(ids)
  {
    var pieces := FormatIds(ids);
    forall k | 0 <= k < |pieces|
      ensures Separator !in pieces[k] && TrimWhitespace(pieces[k]) == pieces[k]
    {
      FormattedIdPiece(ids[k]);
    }
    SplitJoinedPieces(pieces);
  }

  /** Formatting a non-empty id list and reading it back with StringToIds's
      parser gives the ids, in order. */
  lemma IdsRoundTrip(ids: seq<U32>)
    requires |ids| >= 1
    ensures WellFormedIds(Join(FormatIds(ids)))
    ensures IdsOf(Join(FormatIds(ids))) == ids
  {
    var pieces := FormatIds(ids);
    SplitFormattedIds(ids);
    forall k | 0 <= k < |pieces|
      ensures HexStringToUInt(pieces[k]) == Some(ids[k])
    {
      FormattedIdPiece(ids[k]);
    }
    var parsed := ParsedIds(pieces);
    assert forall k :: 0 <= k < |ids| ==> parsed[k] == ids[k];
  }

  /** The inactive secondary devices zipped from the two id lists, up to the
      shorter one. */
  function Zipped(vendorIds: seq<U32>, deviceIds: seq<U32>): (r: seq<GpuDevice>)
    ensures |r| == Min(|vendorIds|, |deviceIds|)
    ensures forall k :: 0 <= k < |r| ==> r[k] == GpuDevice(vendorIds[k], deviceIds[k], false)
  {
    var n := Min(|vendorIds|, |deviceIds|);
    seq(n, k requires 0 <= k < n => GpuDevice(vendorIds[k], deviceIds[k], false))
  }

  /** The pairing loop of ParseSecondaryGpuDevicesFromCommandLine. */
  method ZipDevices(vendorIds: seq<U32>, deviceIds: seq<U32>) returns (secondary: seq<GpuDevice>)
    ensures secondary == Zipped(vendorIds, deviceIds)
  {
    secondary := [];
    var i := 0;
    while i < |vendorIds| && i < |deviceIds|
      invariant 0 <= i <= Min(|vendorIds|, |deviceIds|)
      invariant secondary == Zipped(vendorIds, deviceIds)[..i]
    {
      secondary := secondary + [GpuDevice(vendorIds[i], deviceIds[i], false)];
      i := i + 1;
    }
    assert Zipped(vendorIds, deviceIds)[..i] == Zipped(vendorIds, deviceIds);
  }

  /** Both secondary-id switches are present. */
  predicate HasSecondarySwitches(commandLine: CommandLine) {
    GpuSecondaryVendorIdsSwitch in commandLine && GpuSecondaryDeviceIdsSwitch in commandLine
  }

  /** ParseSecondaryGpuDevicesFromCommandLine: nothing happens unless both
      switches are present; then the secondary GPUs are replaced by the
      zipped, inactive pairs, in order. */
  method ParseSecondaryGpuDevicesFromCommandLine(commandLine: CommandLine, info: GpuInfo) returns (result: GpuInfo)
    requires HasSecondarySwitches(commandLine) ==>
               WellFormedIds(commandLine[GpuSecondaryVendorIdsSwitch])
               && WellFormedIds(commandLine[GpuSecondaryDeviceIdsSwitch])
    ensures !HasSecondarySwitches(commandLine) ==> result == info
    ensures HasSecondarySwitches(commandLine) ==>
              result == info.(secondaryGpus := Zipped(
                IdsOf(commandLine[GpuSecondaryVendorIdsSwitch]), IdsOf(commandLine[GpuSecondaryDeviceIdsSwitch])))
  {
    if GpuSecondaryVendorIdsSwitch !in commandLine || GpuSecondaryDeviceIdsSwitch !in commandLine {
      return info;
    }
    var vendorText := commandLine[GpuSecondaryVendorIdsSwitch];
    var deviceText := commandLine[GpuSecondaryDeviceIdsSwitch];
    var vendorIds := StringToIds(vendorText, []);
    var deviceIds := StringToIds(deviceText, []);
    assert vendorIds == IdsOf(vendorText) && deviceIds == IdsOf(deviceText);
    var secondary := ZipDevices(vendorIds, deviceIds);
    result := info.(secondaryGpus := secondary);
  }

  // ---------------------------------------------------------------------
  // One-shot caches

  /** The two global caches, each holding at most one value. */
  class GpuInfoCaches {
    var gpuInfoCache: Option<GpuInfo>
    var gpuFeatureInfoCache: Option<GpuFeatureInfo>

    constructor ()
      ensures gpuInfoCache == None && gpuFeatureInfoCache == None
    {
      gpuInfoCache := None;
      gpuFeatureInfoCache := None;
    }

    /** CacheGPUInfo expects the cache to be empty. */
    method CacheGPUInfo(info: GpuInfo)
      requires gpuInfoCache == None
      modifies this
      ensures gpuInfoCache == Some(info) && gpuFeatureInfoCache == old(gpuFeatureInfoCache)
    {
      gpuInfoCache := Some(info);
    }

    /** PopGPUInfoCache: false with the output untouched when empty;
        otherwise the cached value, and the cache is emptied. */
    method PopGPUInfoCache(current: GpuInfo) returns (ok: bool, info: GpuInfo)
      modifies this
      ensures ok <==> old(gpuInfoCache).Some?
      ensures ok ==> info == old(gpuInfoCache).value
      ensures !ok ==> info == current
      ensures gpuInfoCache == None && gpuFeatureInfoCache == old(gpuFeatureInfoCache)
    {
      if gpuInfoCache.None? {
        return false, current;
      }
      info := gpuInfoCache.value;
      gpuInfoCache := None;
      ok := true;
    }

    method CacheGpuFeatureInfo(featureInfo: GpuFeatureInfo)
      requires gpuFeatureInfoCache == None
      modifies this
      ensures gpuFeatureInfoCache == Some(featureInfo) && gpuInfoCache == old(gpuInfoCache)
    {
      gpuFeatureInfoCache := Some(featureInfo);
    }

    method PopGpuFeatureInfoCache(current: GpuFeatureInfo) returns (ok: bool, featureInfo: GpuFeatureInfo)
      modifies this
      ensures ok <==> old(gpuFeatureInfoCache).Some?
      ensures ok ==> featureInfo == old(gpuFeatureInfoCache).value
      ensures !ok ==> featureInfo == current
      ensures gpuFeatureInfoCache == None && gpuInfoCache == old(gpuInfoCache)
    {
      if gpuFeatureInfoCache.None? {
        return false, current;
      }
      featureInfo := gpuFeatureInfoCache.value;
      gpuFeatureInfoCache := None;
      ok := true;
    }
  }
}
