/**
 * The priority enumeration. The client (`PriorityLevel` in remind/models.py)
 * and the service (`PriorityLevel` in backend/app/models.py) declare the same
 * three values, so it is defined once here.
 */
module Priority {
  import opened Wrappers

  datatype Priority = High | Medium | Low

  /** The enum's string value. */
  function Value(p: Priority): string {
    match p
    case High => "high"
    case Medium => "medium"
    case Low => "low"
  }

  /** `PriorityLevel(s)`: the member whose value is exactly `s`, or `None` where it raises `ValueError`. */
  function FromValue(s: string): (r: Option<Priority>)
    ensures forall p :: r == Some(p) <==> Value(p) == s
    ensures r.None? <==> s != "high" && s != "medium" && s != "low"
  {
    if s == "high" then Some(High)
    else if s == "medium" then Some(Medium)
    else if s == "low" then Some(Low)
    else None
  }

  /** Exactly three priorities, with distinct values. */
  lemma ValuesDistinct(p: Priority, q: Priority)
    ensures Value(p) == Value(q) <==> p == q
  {
  }
}
