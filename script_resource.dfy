/** A loaded classic script
    (third_party/WebKit/Source/core/loader/resource/ScriptResource.cpp): the
    access-control decision, the cache-validator veto, and the source text
    decoded once from the raw bytes and memoised. */
module ScriptResource {
  import opened Base

  datatype CorsStatus = NotApplicable | SameOrigin | Successful | Failed | ServiceWorkerSuccessful | ServiceWorkerOpaque

  datatype AccessControlStatus = OpaqueResource | SharableCrossOrigin | NotSharableCrossOrigin

  /** CalculateAccessControlStatus: an opaque service-worker response first,
      then same-origin or CORS success. */
  function CalculateAccessControlStatus(cors: CorsStatus, sameOriginOrCorsSuccessful: bool): (r: AccessControlStatus)
    ensures r == OpaqueResource <==> cors == ServiceWorkerOpaque
    ensures r == SharableCrossOrigin <==> cors != ServiceWorkerOpaque && sameOriginOrCorsSuccessful
    ensures r == NotSharableCrossOrigin <==> cors != ServiceWorkerOpaque && !sameOriginOrCorsSuccessful
  {
    if cors == ServiceWorkerOpaque then OpaqueResource
    else if sameOriginOrCorsSuccessful then SharableCrossOrigin
    else NotSharableCrossOrigin
  }

  /** CanUseCacheValidator: never while clients or observers exist, else what
      the base resource says. */
  function CanUseCacheValidator(hasClientsOrObservers: bool, baseCanUseCacheValidator: bool): (r: bool)
    ensures hasClientsOrObservers ==> !r
    ensures !hasClientsOrObservers ==> r == baseCanUseCacheValidator
  {
    !hasClientsOrObservers && baseCanUseCacheValidator
  }

  /** A WTF string: its characters, stored as Latin-1 or as UTF-16. */
  datatype WtfString = WtfString(chars: seq<char>, is8Bit: bool)

  /** CharactersSizeInBytes: one byte per character for 8-bit strings, two
      otherwise. */
  function CharactersSizeInBytes(s: WtfString): (r: nat)
    ensures s.is8Bit ==> r == |s.chars|
    ensures !s.is8Bit ==> r == 2 * |s.chars|
  {
    |s.chars| * (if s.is8Bit then 1 else 2)
  }

  /** The fields SourceText and DestroyDecodedDataForFailedRevalidation touch:
      the raw bytes (None once cleared), the cached text (None for the null
      string), the decoded size, and how many times the bytes were decoded. */
  datatype ResourceState = ResourceState(data: Option<seq<Byte>>, sourceText: Option<WtfString>, decodedSize: nat, decodes: nat)

  /** The raw bytes and the decoded text are never both held, and the
      decoded size accounts for the cached text exactly. */
  predicate Consistent(s: ResourceState) {
    && (s.sourceText.Some? ==> s.data.None? && s.decodedSize == CharactersSizeInBytes(s.sourceText.value))
    && (s.sourceText.None? ==> s.decodedSize == 0)
  }

  /** The state and result of SourceText. With no cached text and raw bytes
      present it decodes them, clears them, records the decoded size and
      caches the text; otherwise it returns the cache as it is. */
  function SourceTextStep(s: ResourceState, decode: seq<Byte> -> WtfString): (r: (ResourceState, Option<WtfString>))
    ensures r.1 == r.0.sourceText
    ensures s.sourceText.None? && s.data.Some? ==>
              r.0 == ResourceState(None, Some(decode(s.data.value)), CharactersSizeInBytes(decode(s.data.value)), s.decodes + 1)
    ensures !(s.sourceText.None? && s.data.Some?) ==> r.0 == s
    ensures Consistent(s) ==> Consistent(r.0)
  {
    if s.sourceText.None? && s.data.Some? then
      var text := decode(s.data.value);
      (ResourceState(None, Some(text), CharactersSizeInBytes(text), s.decodes + 1), Some(text))
    else
      (s, s.sourceText)
  }

  /** DestroyDecodedDataForFailedRevalidation: the null string and size 0. */
  function Destroyed(s: ResourceState): (r: ResourceState)
    ensures r.sourceText.None? && r.decodedSize == 0
    ensures r.data == s.data && r.decodes == s.decodes
    ensures Consistent(s) ==> Consistent(r)
  {
    s.(sourceText := None, decodedSize := 0)
  }

  /** The state after n calls of SourceText. */
  function SourceTextCalls(s: ResourceState, decode: seq<Byte> -> WtfString, n: nat): ResourceState
    decreases n
  {
    if n == 0 then s else SourceTextCalls(SourceTextStep(s, decode).0, decode, n - 1)
  }

  /** A second SourceText changes nothing and returns the same text. */
  lemma SourceTextMemoised(s: ResourceState, decode: seq<Byte> -> WtfString)
    ensures var first := SourceTextStep(s, decode);
            SourceTextStep(first.0, decode) == first
  {
  }

  /** However often SourceText is called, the bytes are decoded at most once,
      and every call after the first returns what the first returned. */
  lemma {:induction false} DecodedAtMostOnce(s: ResourceState, decode: seq<Byte> -> WtfString, n: nat)
    requires n >= 1
    ensures SourceTextCalls(s, decode, n).decodes <= s.decodes + 1
    ensures SourceTextCalls(s, decode, n) == SourceTextStep(s, decode).0
    decreases n
  {
    if n > 1 {
      var first := SourceTextStep(s, decode).0;
      DecodedAtMostOnce(first, decode, n - 1);
      SourceTextMemoised(s, decode);
    }
  }

  /** Once decoded, the raw bytes are gone: after a failed revalidation
      destroys the cache, SourceText has nothing to decode and returns the
      null string. */
  lemma NullTextAfterDestroy(s: ResourceState, decode: seq<Byte> -> WtfString)
    requires s.sourceText.None? && s.data.Some?
    ensures SourceTextStep(Destroyed(SourceTextStep(s, decode).0), decode).1.None?
  {
  }

  class ScriptResource {
    var loaded: bool
    var data: Option<seq<Byte>>
    var sourceText: Option<WtfString>
    var decodedSize: nat
    var decodes: nat
    /** DecodedText: the resource's text decoder over the raw bytes. */
    const decode: seq<Byte> -> WtfString

    function State(): ResourceState
      reads this
    {
      ResourceState(data, sourceText, decodedSize, decodes)
    }

    /** A loaded resource holding its raw bytes and no decoded text. */
    constructor (bytes: seq<Byte>, decoder: seq<Byte> -> WtfString)
      ensures loaded && State() == ResourceState(Some(bytes), None, 0, 0) && decode == decoder
      ensures Consistent(State())
    {
      loaded := true;
      data := Some(bytes);
      sourceText := None;
      decodedSize := 0;
      decodes := 0;
      decode := decoder;
    }

    method SourceText() returns (text: Option<WtfString>)
      requires loaded
      modifies this`data, this`sourceText, this`decodedSize, this`decodes
      ensures (State(), text) == SourceTextStep(old(State()), decode)
    {
      if sourceText.None? && data.Some? {
        var decoded := decode(data.value);
        data := None;
        decodedSize := CharactersSizeInBytes(decoded);
        sourceText := Some(decoded);
        decodes := decodes + 1;
      }
      text := sourceText;
    }

    method DestroyDecodedDataForFailedRevalidation()
      modifies this`sourceText, this`decodedSize
      ensures State() == Destroyed(old(State()))
    {
      sourceText := None;
      decodedSize := 0;
    }
  }
}
