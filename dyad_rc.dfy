/** The error taxonomy of DYAD: enum dyad_core_return_codes and the two
    error-test macros of src/dtl/dyad_rc.h. */
module DyadRc {
  import opened Options

  /** One constructor per enumerator, in declaration order. */
  datatype Rc =
    | Ok              // the operation worked
    | SysFail         // a system or C library call failed
    | NoCtx           // no DYAD context was found
    | FluxFail        // a Flux function failed
    | BadCommit       // a KVS commit failed
    | BadLookup       // a KVS lookup failed
    | BadFetch        // a fetch failed
    | BadResponse     // a response could not be created or populated
    | BadRpc          // an RPC pack or get failed
    | BadFio          // file I/O failed
    | BadManagedPath  // the consumer or producer managed path is bad
    | BadDtlMode      // an invalid data-transport mode
    | BadPack         // JSON packing failed
    | BadUnpack       // JSON unpacking failed
    | UcxInitFail     // UCX initialisation failed
    | UcxWaitFail     // a UCX wait failed
    | UcxCommFail     // a UCX communication routine failed
    | RpcFinished     // the RPC stream ended sooner than expected
    | BadB64Decode    // base64 decoding failed
    | BadCommMode     // an invalid communication mode

  /** The integer value each enumerator is given in the header. */
  function Code(rc: Rc): (c: int)
    ensures -19 <= c <= 0
    ensures c == 0 <==> rc == Ok
  {
    match rc
    case Ok => 0
    case SysFail => -1
    case NoCtx => -2
    case FluxFail => -3
    case BadCommit => -4
    case BadLookup => -5
    case BadFetch => -6
    case BadResponse => -7
    case BadRpc => -8
    case BadFio => -9
    case BadManagedPath => -10
    case BadDtlMode => -11
    case BadPack => -12
    case BadUnpack => -13
    case UcxInitFail => -14
    case UcxWaitFail => -15
    case UcxCommFail => -16
    case RpcFinished => -17
    case BadB64Decode => -18
    case BadCommMode => -19
  }

  /** The enumerators listed by the magnitude of their code. */
  const ByMagnitude: seq<Rc> :=
    [Ok, SysFail, NoCtx, FluxFail, BadCommit, BadLookup, BadFetch, BadResponse,
     BadRpc, BadFio, BadManagedPath, BadDtlMode, BadPack, BadUnpack, UcxInitFail,
     UcxWaitFail, UcxCommFail, RpcFinished, BadB64Decode, BadCommMode]

  /** Reads an integer back as a return code; None for a value that is not one. */
  function FromCode(c: int): (r: Option<Rc>)
    ensures r.Some? <==> -19 <= c <= 0
    ensures r.Some? ==> Code(r.value) == c
  {
    if -19 <= c <= 0 then Some(ByMagnitude[-c]) else None
  }

  /** DYAD_IS_ERROR(code). */
  predicate DyadIsError(code: int) {
    code < 0
  }

  /** FLUX_IS_ERROR(code). */
  predicate FluxIsError(code: int) {
    code < 0
  }

  /** Reading back the code of an enumerator gives that enumerator: the
      codes are pairwise distinct. */
  lemma CodeRoundTrip(rc: Rc)
    ensures FromCode(Code(rc)) == Some(rc)
  {
    match rc
    case Ok =>
    case SysFail =>
    case NoCtx =>
    case FluxFail =>
    case BadCommit =>
    case BadLookup =>
    case BadFetch =>
    case BadResponse =>
    case BadRpc =>
    case BadFio =>
    case BadManagedPath =>
    case BadDtlMode =>
    case BadPack =>
    case BadUnpack =>
    case UcxInitFail =>
    case UcxWaitFail =>
    case UcxCommFail =>
    case RpcFinished =>
    case BadB64Decode =>
    case BadCommMode =>
  }

  lemma CodesDistinct(a: Rc, b: Rc)
    ensures Code(a) == Code(b) ==> a == b
  {
    CodeRoundTrip(a);
    CodeRoundTrip(b);
  }

  /** The codes cover exactly the integers from 0 down to -19. */
  lemma CodesCoverRange(c: int)
    ensures (exists rc :: Code(rc) == c) <==> -19 <= c <= 0
  {
    if -19 <= c <= 0 {
      assert Code(FromCode(c).value) == c;
    }
  }

  /** DYAD_RC_OK is the only code DYAD_IS_ERROR accepts as success; every
      other code is strictly negative. */
  lemma OnlyOkIsNotError(rc: Rc)
    ensures !DyadIsError(Code(rc)) <==> rc == Ok
    ensures rc != Ok ==> Code(rc) < 0
  {
  }

  /** The two error tests are the same predicate on every int. */
  lemma ErrorTestsAgree(code: int)
    ensures DyadIsError(code) == FluxIsError(code)
    ensures DyadIsError(code) <==> code < 0
  {
  }
}
