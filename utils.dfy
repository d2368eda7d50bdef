/** Input validation and the library's error record (packages/src/utils.rs). */
module Utils {
  import opened Wrappers
  import opened Numeric

  /** Largest payload `validate_input_data` accepts: 100 MB. */
  const MAX_INPUT_LEN := 100_000_000

  const EMPTY_INPUT := "Input data cannot be empty"
  const INPUT_TOO_LARGE := "Input data exceeds maximum size limit"

  /** The structured error record exposed to the host. */
  datatype DataPrismError = DataPrismError(message: string, errorType: string, code: u32)

  /** `DataPrismError::new`: its getters give back exactly what it was built from. */
  function NewDataPrismError(message: string, errorType: string, code: u32): (e: DataPrismError)
    ensures e.message == message && e.errorType == errorType && e.code == code
  {
    DataPrismError(message, errorType, code)
  }

  /** `validate_input_data`: accepts a payload of 1 to 100 MB, rejects the empty one
      first and an oversized one second; success always carries `true`. */
  function ValidateInputData(data: Bytes): (r: Result<bool, string>)
    ensures r.Ok? <==> 1 <= |data| <= MAX_INPUT_LEN
    ensures r.Ok? ==> r.value
    ensures |data| == 0 ==> r == Err(EMPTY_INPUT)
    ensures |data| > MAX_INPUT_LEN ==> r == Err(INPUT_TOO_LARGE)
  {
    if |data| == 0 then Err(EMPTY_INPUT)
    else if |data| > MAX_INPUT_LEN then Err(INPUT_TOO_LARGE)
    else Ok(true)
  }

  /** The boundaries are exact: 100_000_000 bytes pass (the check is a strict `>`),
      one more byte fails, and a single byte passes. */
  lemma ValidationBoundaries(data: Bytes)
    ensures |data| == MAX_INPUT_LEN ==> ValidateInputData(data) == Ok(true)
    ensures |data| == MAX_INPUT_LEN + 1 ==> ValidateInputData(data) == Err(INPUT_TOO_LARGE)
    ensures |data| == 1 ==> ValidateInputData(data) == Ok(true)
    ensures ValidateInputData(data) != Ok(false)
  {
  }

  /** The scenarios of the crate's `test_input_validation`. */
  lemma ValidationTestScenarios()
    ensures ValidateInputData([1, 2, 3]).Ok?
    ensures ValidateInputData([]).Err?
    ensures ValidateInputData(seq(200_000_000, _ => 0 as u8)).Err?
  {
  }
}
