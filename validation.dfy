/**
 * The shape every service validator shares: a fixed list of checks, each a
 * condition and the message it reports, and the verdict `{ isValid, errors }`
 * that lists the messages of the failing checks in check order.
 */
module Validation {

  /** One rule: whether it fails, and what it reports when it does. */
  datatype Check = Check(fails: bool, message: string)

  /** What a validator returns. */
  datatype ValidationResult = ValidationResult(isValid: bool, errors: seq<string>)

  /** The message one check contributes: its own when it fails, else none. */
  function Report(c: Check): (r: seq<string>)
    ensures r == [] <==> !c.fails
  {
    if c.fails then [c.message] else []
  }

  /** `if (fails) errors.push(message)`. */
  method PushWhen(errors: seq<string>, fails: bool, message: string) returns (r: seq<string>)
    ensures r == errors + Report(Check(fails, message))
  {
    r := errors;
    if fails {
      r := r + [message];
    }
  }

  /** The messages of the failing checks, in the order of the checks: the
      report of all but the last check, then the last check's own. */
  function FailedMessages(checks: seq<Check>): (errors: seq<string>)
    ensures |errors| <= |checks|
  {
    if checks == [] then []
    else FailedMessages(checks[..|checks| - 1]) + Report(checks[|checks| - 1])
  }

  /** Nothing is reported exactly when no check fails, and every failing
      check's message is reported. */
  lemma {:induction false} FailedMessagesComplete(checks: seq<Check>)
    ensures FailedMessages(checks) == [] <==> forall k :: 0 <= k < |checks| ==> !checks[k].fails
    ensures forall k :: 0 <= k < |checks| && checks[k].fails ==> checks[k].message in FailedMessages(checks)
  {
    if checks != [] {
      var init := checks[..|checks| - 1];
      FailedMessagesComplete(init);
      assert forall k :: 0 <= k < |init| ==> init[k] == checks[k];
    }
  }

  /** Every reported message belongs to a failing check. */
  lemma {:induction false} FailedMessagesSound(checks: seq<Check>, e: string)
    requires e in FailedMessages(checks)
    ensures exists k :: 0 <= k < |checks| && checks[k].fails && checks[k].message == e
  {
    var last := |checks| - 1;
    if !(checks[last].fails && e == checks[last].message) {
      var init := checks[..last];
      FailedMessagesSound(init, e);
      var k :| 0 <= k < |init| && init[k].fails && init[k].message == e;
      assert checks[k] == init[k];
    }
  }

  /** Checking two lists one after the other reports the first list's
      failures, then the second's. */
  lemma {:induction false} FailedMessagesAppend(a: seq<Check>, b: seq<Check>)
    ensures FailedMessages(a + b) == FailedMessages(a) + FailedMessages(b)
  {
    if b == [] {
      assert a + b == a;
    } else {
      var init := b[..|b| - 1];
      assert (a + b)[..|a + b| - 1] == a + init;
      FailedMessagesAppend(a, init);
    }
  }

  /** Checking one more rule appends that rule's report. */
  lemma {:induction false} FailedMessagesExtend(checks: seq<Check>, k: nat)
    requires k < |checks|
    ensures FailedMessages(checks[..k + 1]) == FailedMessages(checks[..k]) + Report(checks[k])
  {
    assert checks[..k + 1][..k] == checks[..k];
  }

  /** A single check reports its own message when it fails. */
  lemma {:induction false} FailedMessagesOfOne(c: Check)
    ensures FailedMessages([c]) == Report(c)
  {
    assert [c][..0] == [];
  }

  /** Two checks report the first one's message, then the second one's. */
  lemma {:induction false} FailedMessagesOfPair(c1: Check, c2: Check)
    ensures FailedMessages([c1, c2]) == Report(c1) + Report(c2)
  {
    assert [c1, c2][..1] == [c1];
    FailedMessagesOfOne(c1);
  }

  /** Three checks report one after the other. */
  lemma {:induction false} FailedMessagesOfThree(cs: seq<Check>)
    requires |cs| == 3
    ensures FailedMessages(cs) == Report(cs[0]) + Report(cs[1]) + Report(cs[2])
  {
    assert cs[..2] == [cs[0], cs[1]];
    FailedMessagesOfPair(cs[0], cs[1]);
  }

  /** Six checks report one after the other. */
  lemma {:induction false} FailedMessagesOfSix(cs: seq<Check>)
    requires |cs| == 6
    ensures FailedMessages(cs) == Report(cs[0]) + Report(cs[1]) + Report(cs[2]) + Report(cs[3])
                                  + Report(cs[4]) + Report(cs[5])
  {
    var a, b := cs[..3], cs[3..];
    assert cs == a + b;
    FailedMessagesAppend(a, b);
    FailedMessagesOfThree(a);
    FailedMessagesOfThree(b);
    assert a[0] == cs[0] && a[1] == cs[1] && a[2] == cs[2];
    assert b[0] == cs[3] && b[1] == cs[4] && b[2] == cs[5];
    ConcatSix(Report(cs[0]), Report(cs[1]), Report(cs[2]), Report(cs[3]), Report(cs[4]), Report(cs[5]));
  }

  lemma ConcatSix(r0: seq<string>, r1: seq<string>, r2: seq<string>,
                  r3: seq<string>, r4: seq<string>, r5: seq<string>)
    ensures (r0 + r1 + r2) + (r3 + r4 + r5) == r0 + r1 + r2 + r3 + r4 + r5
  {
  }

  /** The same, for six checks given one by one, as a validator that starts
      from no errors pushes them. */
  lemma FailedMessagesOfSixChecks(cs: seq<Check>, c0: Check, c1: Check, c2: Check, c3: Check, c4: Check, c5: Check)
    requires cs == [c0, c1, c2, c3, c4, c5]
    ensures FailedMessages(cs) == [] + Report(c0) + Report(c1) + Report(c2) + Report(c3) + Report(c4) + Report(c5)
  {
    FailedMessagesOfSix(cs);
    assert [] + Report(c0) == Report(c0);
  }

  /** Six checks whose first four pass report only the last two. */
  lemma FailedMessagesOfSixWhenFirstFourPass(cs: seq<Check>)
    requires |cs| == 6 && !cs[0].fails && !cs[1].fails && !cs[2].fails && !cs[3].fails
    ensures FailedMessages(cs) == Report(cs[4]) + Report(cs[5])
  {
    FailedMessagesOfSix(cs);
  }

  /** When exactly one check fails, its message is the whole report. */
  lemma {:induction false} FailedMessagesSingle(checks: seq<Check>, k: nat)
    requires k < |checks| && checks[k].fails
    requires forall j :: 0 <= j < |checks| && j != k ==> !checks[j].fails
    ensures FailedMessages(checks) == [checks[k].message]
  {
    var last := |checks| - 1;
    var init := checks[..last];
    assert FailedMessages(checks) == FailedMessages(init) + Report(checks[last]);
    forall j | 0 <= j < |init| && j != k
      ensures !init[j].fails
    {
      assert init[j] == checks[j];
    }
    if k == last {
      FailedMessagesComplete(init);
    } else {
      assert init[k] == checks[k];
      FailedMessagesSingle(init, k);
      assert Report(checks[last]) == [];
    }
  }

  /** The messages of two checks that cannot fail together: at most one. */
  lemma ExclusivePairReportsAtMostOne(c1: Check, c2: Check)
    requires !(c1.fails && c2.fails)
    ensures |FailedMessages([c1, c2])| <= 1
  {
    FailedMessagesOfPair(c1, c2);
  }
}
