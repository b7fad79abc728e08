// The UART framing shared by the controller (RemoteComm) and the remote unit
// (ControllerComm): a payload travels as "<payload|checksum>", where checksum is
// the 8-bit sum of the payload's character codes printed in decimal. The
// receiver reads up to (and without) the closing '>' and validates the rest.
module Frame {
  import opened Common
  import opened Text

  /** The 8-bit wrapping sum of the character codes. */
  function Checksum(s: string): (c: int)
    ensures 0 <= c < 256
    decreases |s|
  {
    if s == [] then 0 else (Checksum(s[..|s| - 1]) + s[|s| - 1] as int) % 256
  }

  /**
   * calculateChecksum: sums the characters of the C string up to its NUL, with
   * the uint8 accumulator wrapping on every addition.
   */
  method CalculateChecksum(data: string) returns (sum: int)
    ensures sum == Checksum(CStr(data))
  {
    var c := CStr(data);
    sum := 0;
    var i := 0;
    while i < |data| && data[i] != '\0'
      invariant 0 <= i <= |c|
      invariant c[..i] == data[..i]
      invariant sum == Checksum(c[..i])
    {
      assert c[..i + 1][..i] == c[..i];
      sum := (sum + data[i] as int) % 256;
      i := i + 1;
    }
    assert c[..i] == c;
  }

  /** The text transmitted for a payload (transmitRemoteCommand, sendCommand). */
  function Encode(payload: string): string
  {
    "<" + payload + "|" + NatToDec(Checksum(payload)) + ">"
  }

  /** What readBytesUntil('>') hands the receiver for a transmitted payload. */
  function Received(payload: string): string
  {
    "<" + payload + "|" + NatToDec(Checksum(payload))
  }

  /**
   * validateChecksum on the received bytes: the C string must hold a '|'; the
   * checksum after it is read with %hhu; the '|' is overwritten with NUL and the
   * checksum of the string after the first character is compared. The result is
   * that string (the payload the caller goes on to process), or None when the
   * frame is refused. When no digits follow the '|' the C code compares against
   * an uninitialised byte; the model refuses such frames.
   */
  function ValidateChecksum(data: string): (r: Option<string>)
  {
    var c := CStr(data);
    match Find(c, '|')
    case None => None
    case Some(k) =>
      var sent := Scan(c[k + 1..], [Num(Uint8Conv)]);
      var payload := if k == 0 then c[1..] else c[1..k];
      if sent == [] || Checksum(payload) != sent[0] then None else Some(payload)
  }

  /** An accepted frame held a '|', and its payload is a C string. */
  lemma ValidatedPayload(data: string)
    ensures var r := ValidateChecksum(data);
      r.Some? ==> '|' in CStr(data) && '\0' !in r.value
  {
    var c := CStr(data);
    match Find(c, '|')
    case None =>
    case Some(k) =>
      var payload := if k == 0 then c[1..] else c[1..k];
      assert forall j :: 0 <= j < |payload| ==> payload[j] in c;
  }

  /** The received bytes of a frame carrying checksum text `ck` for `payload`. */
  lemma {:induction false} ValidateShape(payload: string, ck: nat)
    requires '|' !in payload && '\0' !in payload && ck < 256
    ensures ValidateChecksum("<" + payload + "|" + NatToDec(ck))
         == if Checksum(payload) == ck then Some(payload) else None
  {
    var d := "<" + payload + "|" + NatToDec(ck);
    FrameLayout(payload, NatToDec(ck));
    ScanChecksum(ck);
    assert d[|payload| + 2..] == NatToDec(ck);
  }

  /** Where ValidateChecksum finds the parts of "<payload|digits". */
  lemma FrameLayout(payload: string, digits: string)
    requires '|' !in payload && '\0' !in payload && AllDigits(digits)
    ensures var d := "<" + payload + "|" + digits;
      CStr(d) == d && Find(d, '|') == Some(|payload| + 1) &&
      d[|payload| + 2..] == digits && d[1..|payload| + 1] == payload
  {
    var x, y := "<" + payload, "|" + digits;
    assert "<" + payload + "|" + digits == x + y;
    assert '\0' !in x + y by {
      assert forall i :: 0 <= i < |digits| ==> IsDigit(digits[i]);
    }
    FindAfter(x, y, '|');
    assert (x + y)[|x| + 1..] == digits;
    assert (x + y)[1..|x|] == payload;
  }

  /** strchr finds `c` at the start of `y` when `x` before it does not hold `c`. */
  lemma {:induction false} FindAfter(x: string, y: string, c: char)
    requires c !in x && y != [] && y[0] == c
    ensures Find(x + y, c) == Some(|x|)
    decreases |x|
  {
    if x != [] {
      assert (x + y)[1..] == x[1..] + y;
      FindAfter(x[1..], y, c);
    }
  }

  /** %hhu reads a printed checksum back. */
  lemma ScanChecksum(ck: nat)
    requires ck < 256
    ensures Scan(NatToDec(ck), [Num(Uint8Conv)]) == [ck]
  {
    var fmt := [Num(Uint8Conv)];
    assert Representable(fmt, [ck]) by {
      assert Representable(fmt[1..], []);
    }
    assert Render(fmt, [ck]) == NatToDec(ck) + "";
    ScanRender(fmt, [ck], "");
    assert NatToDec(ck) + "" == NatToDec(ck);
  }

  /** A frame whose payload holds no '|', '>' or NUL is accepted with its payload intact. */
  lemma FrameRoundTrip(payload: string)
    requires '|' !in payload && '>' !in payload && '\0' !in payload
    ensures ValidateChecksum(Received(payload)) == Some(payload)
  {
    ValidateShape(payload, Checksum(payload));
  }

  lemma ModAddLeft(a: int, b: int)
    ensures (a % 256 + b) % 256 == (a + b) % 256
  {
    var q := a / 256;
    assert a == 256 * q + a % 256;
    assert a + b == 256 * q + (a % 256 + b);
  }

  /** Replacing one character changes the sum by the difference of the two codes. */
  lemma {:induction false} ChecksumUpdate(s: string, i: nat, c: char)
    requires i < |s|
    ensures Checksum(s[i := c]) == (Checksum(s) - s[i] as int + c as int) % 256
    decreases |s|
  {
    var t := s[i := c];
    var n := |s|;
    var x := Checksum(s[..n - 1]);
    var last := s[n - 1] as int;
    assert Checksum(s) == (x + last) % 256;
    if i == n - 1 {
      assert t[..n - 1] == s[..n - 1];
      assert Checksum(t) == (x + c as int) % 256;
      ModAddLeft(x + last, c as int - last);
    } else {
      assert t[..n - 1] == s[..n - 1][i := c];
      ChecksumUpdate(s[..n - 1], i, c);
      var y := Checksum(t[..n - 1]);
      assert y == (x - s[i] as int + c as int) % 256;
      assert Checksum(t) == (y + last) % 256;
      ModAddLeft(x - s[i] as int + c as int, last);
      ModAddLeft(x + last, c as int - s[i] as int);
    }
  }

  /**
   * A frame whose payload had one byte changed in transit (by anything other
   * than a multiple of 256) is refused.
   */
  lemma SingleByteCorruptionDetected(payload: string, i: nat, c: char)
    requires '|' !in payload && '>' !in payload && '\0' !in payload
    requires i < |payload| && c != '|' && c != '\0' && c != '>'
    requires (c as int - payload[i] as int) % 256 != 0
    ensures ValidateChecksum("<" + payload[i := c] + "|" + NatToDec(Checksum(payload))) == None
  {
    var bad := payload[i := c];
    ChecksumChanges(payload, i, c);
    assert '|' !in bad && '\0' !in bad by {
      forall j | 0 <= j < |bad| ensures bad[j] != '|' && bad[j] != '\0' {
        if j != i { assert bad[j] == payload[j]; }
      }
    }
    ValidateShape(bad, Checksum(payload));
  }

  /** One changed byte changes the checksum unless the change is a multiple of 256. */
  lemma ChecksumChanges(s: string, i: nat, c: char)
    requires i < |s| && (c as int - s[i] as int) % 256 != 0
    ensures Checksum(s[i := c]) != Checksum(s)
  {
    ChecksumUpdate(s, i, c);
    ModAddLeft(c as int - s[i] as int, Checksum(s));
  }
}
