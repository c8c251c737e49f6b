/**
 * `DisplayResolution.GetDpi(IntPtr, bool, out uint, out uint)`: classification of the
 * result code of `GetDpiForMonitor` and the 96-dpi fallback.
 *
 * The two platform calls (`MonitorFromWindow`, `GetDpiForMonitor`) are replaced by their
 * results: the returned pointer-sized code, read as a signed 64-bit value, and the two dpi
 * values written to the out parameters.
 */
module DisplayResolution {
  import opened Wrappers

  const TwoTo32: int := 0x1_0000_0000

  const S_OK: int := 0
  const E_NOTSUPPORTED: int := 0x80070032
  const E_INVALIDARG: int := 0x80070057
  const E_HANDLE: int := 0x80070006
  const E_BADARG: int := 0x800700a0

  const MDT_EFFECTIVE_DPI: int := 0
  const MDT_RAW_DPI: int := 2

  /** The fallback resolution. */
  const DefaultDpi: nat := 96

  /** The exception `GetDpi` raises. */
  datatype DpiError = ArgumentError | ComError

  /** The dpi type requested from the monitor: raw or effective. */
  function DpiType(rawDpi: bool): (t: int)
    ensures rawDpi <==> t == MDT_RAW_DPI
    ensures !rawDpi <==> t == MDT_EFFECTIVE_DPI
  {
    if rawDpi then MDT_RAW_DPI else MDT_EFFECTIVE_DPI
  }

  /** `hresult_.ToInt64() & 0xFFFFFFFF`: the low 32 bits, as a non-negative value.  On a
      signed 64-bit operand, masking with 2^32 - 1 is reduction modulo 2^32. */
  function MaskHResult(h: int): (r: int)
    ensures 0 <= r < TwoTo32
    ensures (h - r) % TwoTo32 == 0
  {
    h % TwoTo32
  }

  /** On a 32-bit process the code comes back sign-extended (0x80070032 reads as
      0xFFFFFFFF80070032); masking recovers the 32-bit code, and leaves a 64-bit one as is. */
  lemma MaskRecoversCode(code: int)
    requires 0 <= code < TwoTo32
    ensures MaskHResult(code) == code
    ensures code >= TwoTo32 / 2 ==> MaskHResult(code - TwoTo32) == code
  {
  }

  /** The body of `GetDpi` after the platform calls: keep the values on success, zero them when
      unsupported, raise on the documented argument errors and on anything else, then replace
      a zero component by 96 in both. */
  function GetDpi(hresult: int, dpiX: nat, dpiY: nat): (r: Result<(nat, nat), DpiError>)
    ensures var code := MaskHResult(hresult);
      && (r.Ok? <==> code == S_OK || code == E_NOTSUPPORTED)
      && (r == Err(ArgumentError) <==> code == E_HANDLE || code == E_INVALIDARG || code == E_BADARG)
      && (r == Err(ComError) <==> code !in {S_OK, E_NOTSUPPORTED, E_HANDLE, E_INVALIDARG, E_BADARG})
  {
    var code := MaskHResult(hresult);
    if code == S_OK then Ok(Fallback96(dpiX, dpiY))
    else if code == E_NOTSUPPORTED then Ok(Fallback96(0, 0))
    else if code == E_HANDLE || code == E_INVALIDARG || code == E_BADARG then Err(ArgumentError)
    else Err(ComError)
  }

  /** If either component is 0, both become 96. */
  function Fallback96(dpiX: nat, dpiY: nat): (r: (nat, nat))
    ensures r.0 > 0 && r.1 > 0
    ensures dpiX != 0 && dpiY != 0 ==> r == (dpiX, dpiY)
    ensures dpiX == 0 || dpiY == 0 ==> r == (DefaultDpi, DefaultDpi)
  {
    if dpiX == 0 || dpiY == 0 then (DefaultDpi, DefaultDpi) else (dpiX, dpiY)
  }

  /** A successful result is either the monitor's own (non-zero) values or 96 x 96; an
      unsupported monitor gives 96 x 96 whatever it wrote. */
  lemma GetDpiResults(hresult: int, dpiX: nat, dpiY: nat)
    ensures var r := GetDpi(hresult, dpiX, dpiY);
      && (r.Ok? ==> r.value.0 > 0 && r.value.1 > 0)
      && (r.Ok? ==> r.value == (dpiX, dpiY) || r.value == (DefaultDpi, DefaultDpi))
      && (MaskHResult(hresult) == E_NOTSUPPORTED ==> r == Ok((DefaultDpi, DefaultDpi)))
      && (MaskHResult(hresult) == S_OK && dpiX > 0 && dpiY > 0 ==> r == Ok((dpiX, dpiY)))
  {
  }

  /** The x86 case the masking exists for: `E_NOTSUPPORTED` sign-extended to 64 bits is still
      recognised, and yields 96 x 96. */
  lemma SignExtendedNotSupported(dpiX: nat, dpiY: nat)
    ensures GetDpi(E_NOTSUPPORTED - TwoTo32, dpiX, dpiY) == Ok((DefaultDpi, DefaultDpi))
  {
    MaskRecoversCode(E_NOTSUPPORTED);
  }
}
