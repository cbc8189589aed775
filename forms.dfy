/** The validation chains of the client's forms: an ordered list of checks, each
    with the message shown when it fails; the first failing check wins and no
    request is made. */
module Forms {
  import opened Base

  datatype Check = Check(ok: bool, message: string)

  /** The message of the first failing check, or None when every check passes. */
  function FirstFailure(checks: seq<Check>): (r: Option<string>)
    decreases |checks|
  {
    if checks == [] then None
    else if !checks[0].ok then Some(checks[0].message)
    else FirstFailure(checks[1..])
  }

  /** The form is accepted exactly when every check passes; otherwise the message
      is that of a failing check all of whose predecessors pass. */
  lemma {:induction false} FirstFailureSpec(checks: seq<Check>)
    ensures FirstFailure(checks).None? <==> forall i :: 0 <= i < |checks| ==> checks[i].ok
    ensures FirstFailure(checks).Some? ==>
              exists k :: 0 <= k < |checks| && !checks[k].ok && checks[k].message == FirstFailure(checks).value
                          && forall i :: 0 <= i < k ==> checks[i].ok
    decreases |checks|
  {
    if checks != [] && checks[0].ok {
      FirstFailureSpec(checks[1..]);
      if FirstFailure(checks).Some? {
        var k :| 0 <= k < |checks[1..]| && !checks[1..][k].ok && checks[1..][k].message == FirstFailure(checks).value
                 && forall i :: 0 <= i < k ==> checks[1..][i].ok;
        assert forall i :: 0 <= i < k + 1 ==> checks[i].ok by {
          forall i | 0 <= i < k + 1 ensures checks[i].ok {
            if i > 0 { assert checks[i] == checks[1..][i - 1]; }
          }
        }
      }
    } else if checks != [] {
      assert !checks[0].ok;
    }
  }

  /** One step of the chain: a failing head wins, a passing one defers to the rest. */
  lemma FirstFailureCons(c: Check, rest: seq<Check>)
    ensures FirstFailure([c] + rest) == if c.ok then FirstFailure(rest) else Some(c.message)
  {
    assert ([c] + rest)[1..] == rest;
  }
}
