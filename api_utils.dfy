/**
 * The two pure helpers of the REST layer (src/cnlpt/api/utils.py):
 * the entity-marked context window `create_instance_string` and the
 * device decision table `resolve_device`.
 */
module ApiUtils {
  import opened Wrappers

  // ---------------------------------------------------------------------
  // Python slicing and string helpers
  // ---------------------------------------------------------------------

  function Max(a: int, b: int): int { if a < b then b else a }
  function Min(a: int, b: int): int { if a < b then a else b }

  /** Python's normalisation of one slice bound against a length `n`. */
  function SliceBound(i: int, n: nat): (k: nat)
    ensures k <= n
    ensures 0 <= i <= n ==> k == i
  {
    if i < 0 then (if i + n < 0 then 0 else i + n)
    else if i > n then n
    else i
  }

  /** Python's `s[a:b]` for a step of 1, negative and out-of-range bounds included. */
  function PySlice<T>(s: seq<T>, a: int, b: int): (r: seq<T>)
    ensures 0 <= a <= b <= |s| ==> r == s[a..b]
  {
    var lo, hi := SliceBound(a, |s|), SliceBound(b, |s|);
    if lo < hi then s[lo..hi] else []
  }

  /** `s.replace("\n", " ")`: a one-character pattern, so a pointwise map. */
  function ReplaceNewlines(s: string): (r: string)
    ensures |r| == |s|
    ensures forall i :: 0 <= i < |s| ==> r[i] == (if s[i] == '\n' then ' ' else s[i])
    ensures forall i :: 0 <= i < |r| ==> r[i] != '\n'
  {
    seq(|s|, i requires 0 <= i < |s| => if s[i] == '\n' then ' ' else s[i])
  }

  lemma ReplaceNewlinesConcat(a: string, b: string)
    ensures ReplaceNewlines(a + b) == ReplaceNewlines(a) + ReplaceNewlines(b)
  {
  }

  // ---------------------------------------------------------------------
  // create_instance_string
  // ---------------------------------------------------------------------

  /** Indexing `offsets[0]` or `offsets[1]` of a too-short list. */
  datatype InstanceError = OffsetIndexError

  /** How many characters of context are kept on each side of the entity. */
  const ContextChars := 100

  const OpenMarker := " <e> "
  const CloseMarker := " </e> "

  /** The start of the context window. */
  function WindowStart(off0: int): int { Max(0, off0 - ContextChars) }

  /** The end of the context window. */
  function WindowEnd(doc: string, off1: int): int { Min(|doc|, off1 + ContextChars) }

  /** The context window around the entity `[offsets[0], offsets[1])` with the
      entity wrapped in markers and every newline turned into a space. */
  function CreateInstanceString(doc: string, offsets: seq<int>): (r: Result<string, InstanceError>)
    ensures r.Err? <==> |offsets| < 2
    ensures r.Ok? ==> forall i :: 0 <= i < |r.value| ==> r.value[i] != '\n'
  {
    if |offsets| < 2 then Err(OffsetIndexError)
    else
      var start := WindowStart(offsets[0]);
      var end := WindowEnd(doc, offsets[1]);
      var raw := PySlice(doc, start, offsets[0]) + OpenMarker
                 + PySlice(doc, offsets[0], offsets[1]) + CloseMarker
                 + PySlice(doc, offsets[1], end);
      Ok(ReplaceNewlines(raw))
  }

  /** For an entity inside the document the window is the plain concatenation of
      the three slices around the markers, 11 characters longer than the window,
      and the entity text sits right after the opening marker. */
  lemma InstanceStringWithinDocument(doc: string, off0: int, off1: int)
    requires 0 <= off0 <= off1 <= |doc|
    ensures var start, end := WindowStart(off0), WindowEnd(doc, off1);
      && 0 <= start <= off0 <= off1 <= end <= |doc|
      && CreateInstanceString(doc, [off0, off1])
         == Ok(ReplaceNewlines(doc[start..off0] + " <e> " + doc[off0..off1] + " </e> " + doc[off1..end]))
      && |CreateInstanceString(doc, [off0, off1]).value| == (end - start) + 11
      && CreateInstanceString(doc, [off0, off1]).value[off0 - start + 5 .. off1 - start + 5]
         == ReplaceNewlines(doc[off0..off1])
  {
    var start, end := WindowStart(off0), WindowEnd(doc, off1);
    var raw := doc[start..off0] + OpenMarker + doc[off0..off1] + CloseMarker + doc[off1..end];
    assert |raw| == (off0 - start) + 5 + (off1 - off0) + 6 + (end - off1);
    assert raw[off0 - start + 5 .. off1 - start + 5] == doc[off0..off1];
    ReplaceNewlinesConcat(raw[..off1 - start + 5], raw[off1 - start + 5..]);
    ReplaceNewlinesConcat(raw[..off0 - start + 5], raw[off0 - start + 5 .. off1 - start + 5]);
    assert raw == raw[..off0 - start + 5] + raw[off0 - start + 5 .. off1 - start + 5] + raw[off1 - start + 5..];
  }

  // ---------------------------------------------------------------------
  // resolve_device
  // ---------------------------------------------------------------------

  datatype Device = Cuda | Mps | Cpu

  /** The name `resolve_device` returns for a device. */
  function DeviceName(d: Device): string
  {
    match d
    case Cuda => "cuda"
    case Mps => "mps"
    case Cpu => "cpu"
  }

  /** `ValueError(f"invalid device {device}")`, carrying the lower-cased name. */
  datatype DeviceError = InvalidDevice(device: string)

  /** The chosen device, and whether the fallback warning was logged. */
  datatype Resolution = Resolution(device: Device, warned: bool)

  /** `str.lower()` on ASCII letters; other characters are kept. */
  function Lower(s: string): (r: string)
    ensures |r| == |s|
    ensures forall i :: 0 <= i < |s| ==> r[i] == LowerChar(s[i])
  {
    seq(|s|, i requires 0 <= i < |s| => LowerChar(s[i]))
  }

  function LowerChar(c: char): char
  {
    if 'A' <= c <= 'Z' then (c as int + 32) as char else c
  }

  predicate KnownDevice(name: string)
  {
    name == "cuda" || name == "mps" || name == "cpu" || name == "auto"
  }

  /** The device to run on, given which backends report themselves available. */
  function ResolveDevice(device: string, cudaAvailable: bool, mpsAvailable: bool): (r: Result<Resolution, DeviceError>)
    ensures r.Err? <==> !KnownDevice(Lower(device))
    ensures r.Err? ==> r.error == InvalidDevice(Lower(device))
    ensures r.Ok? && r.value.device == Cuda ==> cudaAvailable
    ensures r.Ok? && r.value.device == Mps ==> mpsAvailable
    ensures r.Ok? && r.value.warned ==> r.value.device == Cpu
  {
    var name := Lower(device);
    if !KnownDevice(name) then Err(InvalidDevice(name))
    else if name == "auto" then
      Ok(Resolution(if cudaAvailable then Cuda else if mpsAvailable then Mps else Cpu, false))
    else if name == "cuda" && !cudaAvailable then Ok(Resolution(Cpu, true))
    else if name == "mps" && !mpsAvailable then Ok(Resolution(Cpu, true))
    else if name == "cuda" then Ok(Resolution(Cuda, false))
    else if name == "mps" then Ok(Resolution(Mps, false))
    else Ok(Resolution(Cpu, false))
  }

  /** "auto" prefers CUDA, then MPS, then the CPU, and never warns. */
  lemma AutoResolution(device: string, cudaAvailable: bool, mpsAvailable: bool)
    requires Lower(device) == "auto"
    ensures ResolveDevice(device, cudaAvailable, mpsAvailable)
            == Ok(Resolution(if cudaAvailable then Cuda else if mpsAvailable then Mps else Cpu, false))
  {
  }

  /** An explicit accelerator is kept exactly when it is available; otherwise
      the CPU is chosen with a warning.  An explicit "cpu" is kept silently. */
  lemma ExplicitResolution(d: Device, cudaAvailable: bool, mpsAvailable: bool)
    ensures var available := match d case Cuda => cudaAvailable case Mps => mpsAvailable case Cpu => true;
      ResolveDevice(DeviceName(d), cudaAvailable, mpsAvailable)
      == Ok(if available then Resolution(d, false) else Resolution(Cpu, true))
  {
    assert Lower(DeviceName(d)) == DeviceName(d);
  }

  /** Lower-casing twice is lower-casing once. */
  lemma LowerIdempotent(s: string)
    ensures Lower(Lower(s)) == Lower(s)
  {
  }

  /** The decision depends only on the lower-cased name. */
  lemma ResolveCaseInsensitive(device: string, cudaAvailable: bool, mpsAvailable: bool)
    ensures ResolveDevice(device, cudaAvailable, mpsAvailable)
            == ResolveDevice(Lower(device), cudaAvailable, mpsAvailable)
  {
    LowerIdempotent(device);
  }

  /** Under fixed availability, resolving an already resolved device gives it back. */
  lemma ResolveIdempotent(device: string, cudaAvailable: bool, mpsAvailable: bool)
    requires ResolveDevice(device, cudaAvailable, mpsAvailable).Ok?
    ensures var d := ResolveDevice(device, cudaAvailable, mpsAvailable).value.device;
      ResolveDevice(DeviceName(d), cudaAvailable, mpsAvailable) == Ok(Resolution(d, false))
  {
    var d := ResolveDevice(device, cudaAvailable, mpsAvailable).value.device;
    ExplicitResolution(d, cudaAvailable, mpsAvailable);
  }
}
