/**
 * Building the canister's state from its install argument.  Every address
 * is parsed; the first one that does not parse makes the whole
 * construction fail, and on success the state starts with an empty event
 * store, no running tasks, no signer, no address and no nonce.
 *
 * Parsing an address (`Address::from_str`) is a parameter: a function that
 * either yields an address or the text of its error.
 */
module Lifecycle {
  import opened Wrappers
  import opened Primitives
  import opened CanisterState

  datatype InitArg = InitArg(
    rpcService: RpcService,
    chainId: u64,
    filterAddresses: seq<string>,
    coprocessorEvmAddress: string,
    filterEvents: seq<string>,
    ecdsaKeyId: EcdsaKeyId)

  datatype InvalidStateError = InvalidEthereumContractAddress(message: string)

  /** The error raised for an address that does not parse, carrying the parser's message. */
  function AddressError(parseError: string): InvalidStateError {
    InvalidEthereumContractAddress("ERROR: " + parseError)
  }

  /**
   * Parses each filter address in order and collects the results, stopping
   * at the first failure (`map(...).collect::<Result<_, _>>()`).
   */
  function ParseAddresses(raw: seq<string>, parse: string -> Result<Address, string>)
    : (r: Result<seq<Address>, InvalidStateError>)
    ensures r.Ok? <==> forall i :: 0 <= i < |raw| ==> parse(raw[i]).Ok?
    ensures r.Ok? ==> |r.value| == |raw| && forall i :: 0 <= i < |raw| ==> r.value[i] == parse(raw[i]).value
    ensures r.Err? ==>
              exists i :: 0 <= i < |raw| && parse(raw[i]).Err?
                          && r.error == AddressError(parse(raw[i]).error)
                          && forall j :: 0 <= j < i ==> parse(raw[j]).Ok?
  {
    if raw == [] then Ok([])
    else
      match parse(raw[0])
      case Err(e) => Err(AddressError(e))
      case Ok(address) =>
        match ParseAddresses(raw[1..], parse)
        case Err(e) =>
          assert forall i :: 1 <= i < |raw| ==> raw[i] == raw[1..][i - 1];
          Err(e)
        case Ok(rest) => Ok([address] + rest)
  }

  /** `State::try_from(InitArg)`. */
  function TryFrom(arg: InitArg, parse: string -> Result<Address, string>)
    : (r: Result<StateValue, InvalidStateError>)
    ensures r.Ok? <==> ParseAddresses(arg.filterAddresses, parse).Ok? && parse(arg.coprocessorEvmAddress).Ok?
    ensures ParseAddresses(arg.filterAddresses, parse).Err? ==> r == Err(ParseAddresses(arg.filterAddresses, parse).error)
    ensures ParseAddresses(arg.filterAddresses, parse).Ok? && parse(arg.coprocessorEvmAddress).Err? ==>
              r == Err(AddressError(parse(arg.coprocessorEvmAddress).error))
    ensures r.Ok? ==>
              && |r.value.filterAddresses| == |arg.filterAddresses|
              && (forall i :: 0 <= i < |arg.filterAddresses| ==>
                    r.value.filterAddresses[i] == parse(arg.filterAddresses[i]).value)
              && r.value.coprocessorEvmAddress == parse(arg.coprocessorEvmAddress).value
    ensures r.Ok? ==>
              && r.value.rpcService == arg.rpcService
              && r.value.chainId == arg.chainId
              && r.value.filterEvents == arg.filterEvents
              && r.value.ecdsaKeyId == arg.ecdsaKeyId
    ensures r.Ok? ==>
              && r.value.logsToProcess == map[]
              && r.value.processedLogs == map[]
              && r.value.activeTasks == {}
              && r.value.signer.None?
              && r.value.canisterEvmAddress.None?
              && r.value.nonce.None?
              && StoreInvariant(r.value)
  {
    match ParseAddresses(arg.filterAddresses, parse)
    case Err(e) => Err(e)
    case Ok(filterAddresses) =>
      match parse(arg.coprocessorEvmAddress)
      case Err(e) => Err(AddressError(e))
      case Ok(coprocessor) =>
        Ok(StateValue(
             rpcService := arg.rpcService,
             chainId := arg.chainId,
             coprocessorEvmAddress := coprocessor,
             filterAddresses := filterAddresses,
             filterEvents := arg.filterEvents,
             logsToProcess := map[],
             processedLogs := map[],
             activeTasks := {},
             signer := None,
             ecdsaKeyId := arg.ecdsaKeyId,
             canisterEvmAddress := None,
             nonce := None))
  }
}
