/** The server's time: a decimal timestamp, and the clock that runs on from it. */
module TimeSync {
  import opened Wrappers

  predicate IsDigit(c: char) {
    '0' <= c <= '9'
  }

  predicate AllDigits(s: string) {
    forall i :: 0 <= i < |s| ==> IsDigit(s[i])
  }

  function DigitValue(c: char): nat
    requires IsDigit(c)
  {
    (c as int) - ('0' as int)
  }

  // The number that a digit string denotes.
  function Decimal(s: string): nat
    requires AllDigits(s)
  {
    if s == "" then 0 else 10 * Decimal(s[..|s| - 1]) + DigitValue(s[|s| - 1])
  }

  // A number without leading zeros.
  function Digits(n: nat): (s: string)
    ensures AllDigits(s) && s != ""
  {
    if n < 10 then [((n as int) + ('0' as int)) as char]
    else Digits(n / 10) + [((n % 10) + ('0' as int)) as char]
  }

  method TimestampFromBuf(buf: string) returns (status: Status, value: nat)
    ensures status == if AllDigits(buf) then Ok else Err(EBADMSG)
    ensures status.Ok? ==> value == Decimal(buf)
  {
    value := 0;
    var i := 0;
    while i < |buf|
      invariant 0 <= i <= |buf| && AllDigits(buf[..i]) && value == Decimal(buf[..i])
    {
      if buf[i] < '0' || buf[i] > '9' {
        return Err(EBADMSG), 0;
      }
      assert buf[..i + 1][..i] == buf[..i];
      value := value * 10 + DigitValue(buf[i]);
      i := i + 1;
    }
    assert buf[..i] == buf;
    return Ok, value;
  }

  // One more digit.
  lemma DecimalAppend(s: string, c: char)
    requires AllDigits(s) && '0' <= c <= '9'
    ensures Decimal("") == 0
    ensures AllDigits(s + [c]) && Decimal(s + [c]) == 10 * Decimal(s) + (c as int - '0' as int)
  {
    assert (s + [c])[..|s|] == s;
  }

  // Every number is read back from its decimal form.
  lemma {:induction false} DecimalOfDigits(n: nat)
    ensures Decimal(Digits(n)) == n
  {
    var s := Digits(n);
    if n < 10 {
      assert s[..0] == "";
    } else {
      DecimalOfDigits(n / 10);
      assert s[..|s| - 1] == Digits(n / 10);
    }
  }

  // Leading zeros do not matter, so the empty buffer reads as zero.
  lemma {:induction false} LeadingZero(s: string)
    requires AllDigits(s)
    ensures AllDigits("0" + s) && Decimal("0" + s) == Decimal(s)
  {
    if s == "" {
      assert ("0" + s)[..0] == "";
    } else {
      LeadingZero(s[..|s| - 1]);
      assert ("0" + s)[..|s|] == "0" + s[..|s| - 1];
    }
  }

  // uptime is passed in wherever the source asks the kernel for it.
  class Clock {
    var serverTime: int
    var uptimeThen: int

    constructor ()
      ensures serverTime == 0 && uptimeThen == 0
    {
      serverTime, uptimeThen := 0, 0;
    }

    // A time response is taken over only if it is a number.
    method HandleTimeResponse(payload: string, uptime: int) returns (status: Status)
      modifies this
      ensures status == if payload != "" && AllDigits(payload) then Ok else Err(EBADMSG)
      ensures status.Ok? ==> forall later :: Msec(later) == Decimal(payload) + (later - uptime)
      ensures status.Err? ==> serverTime == old(serverTime) && uptimeThen == old(uptimeThen)
    {
      if |payload| == 0 {
        return Err(EBADMSG);
      }
      var value;
      status, value := TimestampFromBuf(payload);
      if status.Err? {
        return;
      }
      serverTime, uptimeThen := value, uptime;
    }

    function Msec(uptime: int): int
      reads this
    {
      (uptime - uptimeThen) + serverTime
    }
  }
}
