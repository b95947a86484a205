/**
 * The device check at the start of model_summary: the argument is lower-cased
 * and must then be "cuda" or "cpu"; anything else fails the assertion.
 */
module Device {
  import opened Wrappers

  /** The failure the check raises: Python's AssertionError with the "not valid" message. */
  datatype DeviceError = DeviceNotValid

  /** Lower-casing of one ASCII character; every other character is kept. */
  function LowerChar(c: char): char
  {
    if 'A' <= c <= 'Z' then (c as int - 'A' as int + 'a' as int) as char else c
  }

  /** Python's `str.lower()`, restricted to ASCII letters. */
  function Lower(s: string): (r: string)
    ensures |r| == |s|
    ensures forall i :: 0 <= i < |s| ==> r[i] == LowerChar(s[i])
  {
    if s == [] then [] else [LowerChar(s[0])] + Lower(s[1..])
  }

  /** The device names the check accepts. */
  const Devices: seq<string> := ["cuda", "cpu"]

  /** `device = device.lower(); assert device in ["cuda", "cpu"]`: the lower-cased device, or the failure. */
  function CheckDevice(device: string): (r: Result<string, DeviceError>)
    ensures r.Ok? ==> r.value in Devices
  {
    var lowered := Lower(device);
    if lowered in Devices then Ok(lowered) else Err(DeviceNotValid)
  }

  /** `s` spells `word` (a lower-case word) with each letter in either case. */
  ghost predicate SpellsIgnoringCase(s: string, word: string)
  {
    |s| == |word| &&
    forall i :: 0 <= i < |s| ==>
      s[i] == word[i] || ('a' <= word[i] <= 'z' && s[i] as int == word[i] as int - 'a' as int + 'A' as int)
  }

  /** A character lower-cases to a lower-case letter exactly when it is that letter in either case. */
  lemma LowerCharIs(c: char, w: char)
    requires 'a' <= w <= 'z'
    ensures LowerChar(c) == w <==> (c == w || c as int == w as int - 'a' as int + 'A' as int)
  {
  }

  /** The check passes exactly for "cuda" and "cpu" spelt in any mix of cases. */
  lemma {:induction false} CheckDeviceAccepts(device: string)
    ensures CheckDevice(device).Ok? <==> SpellsIgnoringCase(device, "cuda") || SpellsIgnoringCase(device, "cpu")
  {
    var lowered := Lower(device);
    forall word | word in Devices
      ensures lowered == word <==> SpellsIgnoringCase(device, word)
    {
      if |device| == |word| {
        forall i | 0 <= i < |device|
          ensures lowered[i] == word[i] <==>
            (device[i] == word[i] || ('a' <= word[i] <= 'z' && device[i] as int == word[i] as int - 'a' as int + 'A' as int))
        {
          LowerCharIs(device[i], word[i]);
        }
      }
    }
  }

  /** What the check does with a few concrete arguments. */
  lemma CheckDeviceExamples()
    ensures CheckDevice("cpu") == Ok("cpu")
    ensures CheckDevice("CUDA") == Ok("cuda")
    ensures CheckDevice("Cpu") == Ok("cpu")
    ensures CheckDevice("gpu") == Err(DeviceNotValid)
    ensures CheckDevice("cuda:0") == Err(DeviceNotValid)
  {
    assert Lower("CUDA") == "cuda";
    assert Lower("Cpu") == "cpu";
  }
}
