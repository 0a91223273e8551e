/** The in-memory one-time-password store of the API: a table from a lower-cased
    e-mail to the pending code and its expiry, with store, verify and remove. */
module Otp {
  import opened Text

  /** Time as a count of 100-nanosecond ticks, the unit of `DateTime`. */
  type Time = int

  /** The validity window: ten minutes, in ticks. */
  const OtpValidity: int := 10 * 60 * 10_000_000

  /** Generated codes are drawn from [OtpLow, OtpHigh): the upper bound of
      `Random.Next` is exclusive. */
  const OtpLow: nat := 100000
  const OtpHigh: nat := 999999

  // ---------------------------------------------------------------------------
  // Decimal rendering of a code (`int.ToString()`)

  function DigitChar(d: nat): (c: char)
    requires d < 10
    ensures IsDigit(c)
  {
    ('0' as int + d) as char
  }

  function Pow10(k: nat): (p: nat)
    ensures p >= 1
  {
    if k == 0 then 1 else 10 * Pow10(k - 1)
  }

  /** The decimal digits of `n`, most significant first, without leading zeros. */
  function NatToDecimal(n: nat): (s: string)
    ensures |s| >= 1 && AllDigits(s)
    ensures n > 0 ==> s[0] != '0'
  {
    if n < 10 then [DigitChar(n)] else NatToDecimal(n / 10) + [DigitChar(n % 10)]
  }

  /** Parsing undoes rendering, so rendering is injective. */
  lemma {:induction false} DecimalRoundTrip(n: nat)
    ensures ParseDecimal(NatToDecimal(n)) == n
  {
    if n >= 10 {
      DecimalRoundTrip(n / 10);
      var s := NatToDecimal(n);
      assert s[..|s| - 1] == NatToDecimal(n / 10);
    }
  }

  /** A number with k digits renders as exactly k characters. */
  lemma {:induction false} DecimalLength(n: nat, k: nat)
    requires k >= 1 && Pow10(k - 1) <= n < Pow10(k)
    ensures |NatToDecimal(n)| == k
  {
    if n >= 10 {
      assert k >= 2;
      DecimalLength(n / 10, k - 1);
    }
  }

  /** A well-formed one-time password: six decimal digits. */
  predicate IsOtpCode(code: string)
  {
    |code| == 6 && AllDigits(code)
  }

  /** Every number the generator can draw renders as a six-digit code other than "999999". */
  lemma GeneratedCodeShape(n: nat)
    requires OtpLow <= n < OtpHigh
    ensures IsOtpCode(NatToDecimal(n))
    ensures NatToDecimal(n) != "999999"
  {
    assert Pow10(5) == 100000 && Pow10(6) == 1000000;
    DecimalLength(n, 6);
    DecimalRoundTrip(n);
    assert NatToDecimal(OtpHigh) == "999999";
    DecimalRoundTrip(OtpHigh);
  }

  // ---------------------------------------------------------------------------
  // The store as a value

  datatype OtpEntry = OtpEntry(otp: string, expiry: Time)

  type Store = map<string, OtpEntry>

  /** The store after `AddOrUpdate` under the lower-cased e-mail. */
  function Put(store: Store, email: string, otp: string, now: Time): Store
  {
    store[Lower(email) := OtpEntry(otp, now + OtpValidity)]
  }

  /** The store after `TryRemove` of the lower-cased e-mail. */
  function Without(store: Store, email: string): Store
  {
    store - {Lower(email)}
  }

  /** Verification succeeds: an entry exists for the lower-cased e-mail, its code
      equals the submitted one exactly, and it has not expired. */
  predicate Accepts(store: Store, email: string, otp: string, now: Time)
  {
    var key := Lower(email);
    key in store && store[key].otp == otp && store[key].expiry > now
  }

  /** Storing touches only the lower-cased key and always leaves a fresh entry there. */
  lemma PutFrame(store: Store, email: string, otp: string, now: Time)
    ensures Put(store, email, otp, now).Keys == store.Keys + {Lower(email)}
    ensures Put(store, email, otp, now)[Lower(email)] == OtpEntry(otp, now + OtpValidity)
    ensures forall k :: k in store && k != Lower(email) ==> Put(store, email, otp, now)[k] == store[k]
  {
  }

  /** Round trip: a stored code verifies, under any spelling of the e-mail with the
      same lower-case form, exactly while the window is open. */
  lemma StoreThenVerify(store: Store, email: string, email': string, otp: string, t: Time, t': Time)
    requires Lower(email') == Lower(email)
    ensures Accepts(Put(store, email, otp, t), email', otp, t') <==> t' < t + OtpValidity
  {
  }

  /** A stored code is accepted at the moment it is stored. */
  lemma FreshCodeAccepted(store: Store, email: string, otp: string, t: Time)
    ensures Accepts(Put(store, email, otp, t), email, otp, t)
  {
  }

  /** Only the stored code is accepted: any other submission fails. */
  lemma OnlyStoredCodeAccepted(store: Store, email: string, otp: string, other: string, t: Time, t': Time)
    requires other != otp
    ensures !Accepts(Put(store, email, otp, t), email, other, t')
  {
  }

  /** Last write wins: after a second store, the first code no longer verifies
      and the second verifies within its own window. */
  lemma LastWriteWins(store: Store, email: string, c1: string, c2: string, t1: Time, t2: Time, t': Time)
    requires c1 != c2
    ensures !Accepts(Put(Put(store, email, c1, t1), email, c2, t2), email, c1, t')
    ensures Accepts(Put(Put(store, email, c1, t1), email, c2, t2), email, c2, t') <==> t' < t2 + OtpValidity
  {
  }

  /** Storing for one identity does not change verification for another. */
  lemma PutIsolated(store: Store, email: string, other: string, otp: string, code: string, t: Time, t': Time)
    requires Lower(other) != Lower(email)
    ensures Accepts(Put(store, email, otp, t), other, code, t') == Accepts(store, other, code, t')
  {
  }

  /** Removal deletes only the lower-cased key, is a no-op when it is absent, and
      afterwards no code verifies for that identity. */
  lemma RemoveRejects(store: Store, email: string, email': string, code: string, t: Time)
    requires Lower(email') == Lower(email)
    ensures Without(store, email).Keys == store.Keys - {Lower(email)}
    ensures forall k :: k in Without(store, email) ==> Without(store, email)[k] == store[k]
    ensures Lower(email) !in store ==> Without(store, email) == store
    ensures !Accepts(Without(store, email), email', code, t)
  {
  }

  // ---------------------------------------------------------------------------
  // The service object, whose dictionary is updated in place

  class OtpService {
    var store: Store

    constructor()
      ensures store == map[]
    {
      store := map[];
    }

    /** Draws a number in [100000, 999999) and renders it in decimal. The random
        draw is a nondeterministic choice. */
    method GenerateOtp() returns (code: string)
      ensures exists n :: OtpLow <= n < OtpHigh && code == NatToDecimal(n)
      ensures IsOtpCode(code) && code != "999999"
    {
      var n: nat :| OtpLow <= n < OtpHigh;
      code := NatToDecimal(n);
      GeneratedCodeShape(n);
    }

    /** Inserts or overwrites the entry of the lower-cased e-mail with the code and
        an expiry ten minutes after `now`; always reports success. */
    method StoreOtp(email: string, otp: string, now: Time) returns (ok: bool)
      modifies this
      ensures store == Put(old(store), email, otp, now)
      ensures ok
    {
      var key := Lower(email);
      store := store[key := OtpEntry(otp, now + OtpValidity)];
      ok := true;
    }

    /** Reads the entry of the lower-cased e-mail; true iff the code matches and the
        expiry lies strictly after `now`. The store is not changed. */
    method VerifyOtp(email: string, otp: string, now: Time) returns (valid: bool)
      ensures valid <==> Accepts(store, email, otp, now)
    {
      var key := Lower(email);
      valid := false;
      if key in store {
        var info := store[key];
        if info.otp == otp && info.expiry > now {
          valid := true;
        }
      }
    }

    /** Deletes the entry of the lower-cased e-mail, if there is one. */
    method RemoveOtp(email: string)
      modifies this
      ensures store == Without(old(store), email)
    {
      store := store - {Lower(email)};
    }
  }
}
