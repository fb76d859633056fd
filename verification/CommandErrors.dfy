/** How sendCommand reads an error message back into a status, an error code and a description. */
module CommandErrors {
  import opened Strings
  import opened Wrappers
  import opened PendingRequests

  datatype Status = Pending | Completed | Error | Timeout

  datatype Reading = Reading(status: Status, errorCode: Option<string>, description: string)

  /** Position of the first colon, or the length if there is none. */
  function Colon(s: string): (k: nat)
    ensures k <= |s| && (k < |s| ==> s[k] == ':') && forall i :: 0 <= i < k ==> s[i] != ':'
  {
    if s == "" || s[0] == ':' then 0 else 1 + Colon(s[1..])
  }

  // ----- The reading -----

  predicate MentionsTimeout(message: string) {
    Includes(ToLower(message), "timeout")
  }

  function Read(message: string): Reading {
    if MentionsTimeout(message) then Reading(Timeout, None, message)
    else if 0 < Colon(message) < |message| then
      Reading(Error, Some(Trim(message[..Colon(message)])), Trim(message[Colon(message) + 1..]))
    else Reading(Error, None, message)
  }

  /** The message the router makes of a CallError. */
  function CallErrorMessage(code: string, description: string): string {
    code + ": " + description
  }

  /** The catch block of sendCommand. */
  method ReadError(message: string) returns (r: Reading)
    ensures r == Read(message)
  {
    var isTimeout := Includes(ToLower(message), "timeout");
    var errorCode: Option<string> := None;
    var errorDescription := message;
    if !isTimeout {
      var colonIdx := Colon(message);
      if 0 < colonIdx < |message| {
        errorCode := Some(Trim(message[..colonIdx]));
        errorDescription := Trim(message[colonIdx + 1..]);
      }
    }
    return Reading(if isTimeout then Timeout else Error, errorCode, errorDescription);
  }

  /** An expired timer is always recorded as a timeout. */
  lemma ExpiryReadsAsTimeout(id: string)
    ensures Read(TimeoutMessage(id)) == Reading(Timeout, None, TimeoutMessage(id))
  {
    var lower := ToLower(TimeoutMessage(id));
    assert TimeoutMessage(id)[14..] == "timeout for messageId: " + id;
    assert "timeout" <= lower[14..];
  }

  /**
   * A CallError that does not mention a timeout is read back exactly, code and trimmed description,
   * if and only if its code is not empty, has no colon and no space at its ends.
   */
  lemma CallErrorRoundTrip(code: string, description: string)
    requires !MentionsTimeout(CallErrorMessage(code, description))
    ensures Read(CallErrorMessage(code, description)) == Reading(Error, Some(code), Trim(description))
            <==> code != "" && ':' !in code && Trim(code) == code
  {
    var message := CallErrorMessage(code, description);
    var k := Colon(message);
    assert message[|code|] == ':';
    assert message[..|code|] == code && message[|code| + 1..] == " " + description;
    TrimSpaceFirst(description);
    if ':' !in code {
      assert k == |code|;
    } else {
      var i :| 0 <= i < |code| && code[i] == ':';
      assert message[i] == ':' && k <= i;
      TrimShrinks(message[..k]);
    }
  }

  lemma IncludesLeft(a: string, b: string, w: string)
    requires Includes(a, w)
    ensures Includes(a + b, w)
  {
    var i :| 0 <= i <= |a| && w <= a[i..];
    assert (a + b)[i..] == a[i..] + b;
  }

  lemma IncludesRight(a: string, b: string, w: string)
    requires Includes(b, w)
    ensures Includes(a + b, w)
  {
    var i :| 0 <= i <= |b| && w <= b[i..];
    assert (a + b)[|a| + i..] == b[i..];
  }

  /** An occurrence of w in a joined text does not span a separator that w lacks. */
  lemma IncludesEither(a: string, c: char, b: string, w: string)
    requires w != "" && c !in w && Includes(a + [c] + b, w)
    ensures Includes(a, w) || Includes(b, w)
  {
    var s := a + [c] + b;
    var i :| 0 <= i <= |s| && w <= s[i..];
    if i + |w| <= |a| {
      assert w == s[i..][..|w|] == a[i..][..|w|];
    } else {
      forall k | i <= k < i + |w| ensures s[k] != c {
        assert s[k] == s[i..][k - i] == w[k - i];
      }
      assert s[|a|] == c && i > |a|;
      assert s[i..] == b[i - |a| - 1..];
    }
  }

  /** A word without the separator occurs in a joined text exactly when it occurs in one of the parts. */
  lemma IncludesJoin(a: string, c: char, b: string, w: string)
    requires w != "" && c !in w
    ensures Includes(a + [c] + b, w) <==> Includes(a, w) || Includes(b, w)
  {
    if Includes(a + [c] + b, w) { IncludesEither(a, c, b, w); }
    if Includes(a, w) {
      IncludesLeft(a, [c], w);
      IncludesLeft(a + [c], b, w);
    }
    if Includes(b, w) { IncludesRight(a + [c], b, w); }
    hide Includes;
  }

  /**
   * A CallError is recorded as an error, not as a timeout, exactly when neither its code nor its
   * description contains the word "timeout" in any letter case.
   */
  lemma CallErrorIsErrorIff(code: string, description: string)
    ensures Read(CallErrorMessage(code, description)).status == Error
            <==> !MentionsTimeout(code) && !MentionsTimeout(description)
  {
    var w, lc, ld := "timeout", ToLower(code), ToLower(description);
    IncludesJoin(lc, ':', "" + [' '] + ld, w);
    IncludesJoin("", ' ', ld, w);
    assert ToLower(CallErrorMessage(code, description)) == lc + [':'] + ("" + [' '] + ld);
    assert !Includes("", w);
  }

  /** So a charger's own error report can be recorded as an expired timer. */
  lemma CallErrorReadAsTimeout()
    ensures Read(CallErrorMessage("InternalError", "Gateway Timeout")).status == Timeout
  {
    var lower := ToLower("Gateway Timeout");
    assert lower[8..] == "timeout";
    assert MentionsTimeout("Gateway Timeout");
    CallErrorIsErrorIff("InternalError", "Gateway Timeout");
  }
}
