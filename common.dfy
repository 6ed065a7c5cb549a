/** Values shared by the server, the simulator and the training scripts. */
module Common {

  /** A value that may be absent: JavaScript's null/undefined, SQL's NULL. */
  datatype Option<+T> = None | Some(value: T) {
    function GetOr(default: T): T {
      match this
      case Some(v) => v
      case None => default
    }
  }

  /** The four flood statuses shared by the simulator, the predictor and the training labels. */
  const Normal: string := "Bình thường"
  const Warning: string := "Cảnh báo!"
  const High: string := "Cảnh báo Cao!"
  const Danger: string := "Nguy hiểm!"

  predicate IsStatus(s: string) {
    s == Normal || s == Warning || s == High || s == Danger
  }

  /** Rank of a status: 0 for normal up to 3 for danger. */
  function Severity(s: string): (r: nat)
    requires IsStatus(s)
    ensures r <= 3
    ensures r == 0 <==> s == Normal
    ensures r == 3 <==> s == Danger
  {
    if s == Normal then 0 else if s == Warning then 1 else if s == High then 2 else 3
  }

  function Max(x: real, y: real): real { if x < y then y else x }

  function Min(x: real, y: real): real { if x < y then x else y }

  /** `Math.min(hi, Math.max(lo, x))`. */
  function Clamp(x: real, lo: real, hi: real): (r: real)
    requires lo <= hi
    ensures lo <= r <= hi
    ensures lo <= x <= hi ==> r == x
  {
    Min(hi, Max(lo, x))
  }
}
