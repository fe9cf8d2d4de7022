/** The one-time-passcode ledger of the email OTP server: the hourly send
    bucket, issuing a code and verifying it. Time is integer seconds and is
    passed in; the six-digit code is an input (the server draws it at random);
    the hash is a function given to the ledger when it is built. */
module OtpLedger {
  import opened Wrappers
  import opened Text

  const DefaultTtlSeconds := 600
  const DefaultMaxSendsPerHour := 5
  const DefaultMaxAttempts := 5
  /** Length of the send-rate window, in seconds. */
  const BucketWindow := 3600

  /** The stored record of an issued code: its hash, its expiry time and the
      number of verification attempts made against it. */
  datatype Meta = Meta(hash: string, exp: int, attempts: int)

  /** The send-rate bucket of one address: sends counted since `start`. */
  datatype Bucket = Bucket(count: int, start: int)

  /** The server's settings, read once at start-up. `configured` says whether
      the mail service connection string and sender address are set. */
  datatype Config = Config(ttl: int, maxSends: int, maxAttempts: int, configured: bool)

  const DefaultConfig := Config(DefaultTtlSeconds, DefaultMaxSendsPerHour, DefaultMaxAttempts, true)

  /** The server's in-memory store: code records under `otp:<email>:meta`
      keys, send buckets under `otp:<email>:bucket` keys. */
  datatype Store = Store(metas: map<string, Meta>, buckets: map<string, Bucket>)

  datatype SendOutcome = Sent(ttlSeconds: int) | TooManyRequests | NotConfigured

  datatype VerifyOutcome = Verified | NoPending | Expired | TooManyAttempts | IncorrectCode

  /** `_key`: the store key of an address, case-folded. */
  function Key(email: string, suffix: string): string {
    "otp:" + Lower(email) + ":" + suffix
  }

  function MetaKey(email: string): string { Key(email, "meta") }

  function BucketKey(email: string): string { Key(email, "bucket") }

  predicate IsSixDigits(code: string) {
    |code| == 6 && forall i :: 0 <= i < 6 ==> '0' <= code[i] <= '9'
  }

  ghost predicate Injective(hash: string -> string) {
    forall a, b :: hash(a) == hash(b) ==> a == b
  }

  // ---------------------------------------------------------------------
  // The specification: each operation as a function of the store

  /** The bucket after one more send at `now`: a missing bucket, or one whose
      window began more than an hour ago, restarts at `now`. */
  function NextBucket(rec: Option<Bucket>, now: int): Bucket {
    if rec.None? || now - rec.value.start > BucketWindow then Bucket(1, now)
    else Bucket(rec.value.count + 1, rec.value.start)
  }

  function BucketOf(st: Store, email: string): Option<Bucket> {
    if BucketKey(email) in st.buckets then Some(st.buckets[BucketKey(email)]) else None
  }

  /** `_send_email_otp_impl` without the mail dispatch. */
  function Send(cfg: Config, hash: string -> string, st: Store, email: string, code: string, now: int): (Store, SendOutcome) {
    if !cfg.configured then (st, NotConfigured)
    else
      var b := NextBucket(BucketOf(st, email), now);
      var counted := st.(buckets := st.buckets[BucketKey(email) := b]);
      if b.count > cfg.maxSends then (counted, TooManyRequests)
      else (counted.(metas := st.metas[MetaKey(email) := Meta(hash(code), now + cfg.ttl, 0)]), Sent(cfg.ttl))
  }

  /** `_verify_email_otp_impl`. */
  function Verify(cfg: Config, hash: string -> string, st: Store, email: string, code: string, now: int): (Store, VerifyOutcome) {
    var k := MetaKey(email);
    if k !in st.metas then (st, NoPending)
    else
      var meta := st.metas[k];
      if now > meta.exp then (st.(metas := st.metas - {k}), Expired)
      else
        var tried := meta.(attempts := meta.attempts + 1);
        if tried.attempts > cfg.maxAttempts then (st.(metas := st.metas[k := tried]), TooManyAttempts)
        else if hash(code) != meta.hash then (st.(metas := st.metas[k := tried]), IncorrectCode)
        else (st.(metas := st.metas - {k}), Verified)
  }

  // ---------------------------------------------------------------------
  // The server's global store and its operations

  class Ledger {
    const cfg: Config
    const hash: string -> string
    var metas: map<string, Meta>
    var buckets: map<string, Bucket>

    function Contents(): Store
      reads this
    {
      Store(metas, buckets)
    }

    constructor (cfg: Config, hash: string -> string)
      ensures this.cfg == cfg && this.hash == hash
      ensures Contents() == Store(map[], map[])
    {
      this.cfg := cfg;
      this.hash := hash;
      metas := map[];
      buckets := map[];
    }

    /** `_incr_bucket`: count one more send for `email` and return the count. */
    method IncrBucket(email: string, now: int) returns (count: int)
      modifies this
      ensures buckets == old(buckets)[BucketKey(email) := NextBucket(BucketOf(old(Contents()), email), now)]
      ensures metas == old(metas)
      ensures count == buckets[BucketKey(email)].count
    {
      var k := BucketKey(email);
      var rec: Bucket;
      if k !in buckets || now - buckets[k].start > BucketWindow {
        rec := Bucket(0, now);
      } else {
        rec := buckets[k];
      }
      rec := rec.(count := rec.count + 1);
      buckets := buckets[k := rec];
      count := rec.count;
    }

    /** `_send_email_otp_impl`: rate-limit, then store the hash of `code`
        with a fresh expiry and no attempts. */
    method SendEmailOtp(email: string, code: string, now: int) returns (outcome: SendOutcome)
      requires IsSixDigits(code)
      modifies this
      ensures (Contents(), outcome) == Send(cfg, hash, old(Contents()), email, code, now)
    {
      if !cfg.configured {
        return NotConfigured;
      }
      var count := IncrBucket(email, now);
      if count > cfg.maxSends {
        return TooManyRequests;
      }
      metas := metas[MetaKey(email) := Meta(hash(code), now + cfg.ttl, 0)];
      outcome := Sent(cfg.ttl);
    }

    /** `_verify_email_otp_impl`. */
    method VerifyEmailOtp(email: string, code: string, now: int) returns (outcome: VerifyOutcome)
      modifies this
      ensures (Contents(), outcome) == Verify(cfg, hash, old(Contents()), email, code, now)
    {
      var k := MetaKey(email);
      if k !in metas {
        return NoPending;
      }
      var meta := metas[k];
      if now > meta.exp {
        metas := metas - {k};
        return Expired;
      }
      meta := meta.(attempts := meta.attempts + 1);
      if meta.attempts > cfg.maxAttempts {
        metas := metas[k := meta];
        return TooManyAttempts;
      }
      if hash(code) != meta.hash {
        metas := metas[k := meta];
        return IncorrectCode;
      }
      metas := metas - {k};
      outcome := Verified;
    }
  }

  // ---------------------------------------------------------------------
  // Keys

  /** Two addresses share their records exactly when they agree up to case. */
  lemma KeyIgnoresCase(a: string, b: string, suffix: string)
    ensures Key(a, suffix) == Key(b, suffix) <==> Lower(a) == Lower(b)
  {
    if Key(a, suffix) == Key(b, suffix) {
      assert Key(a, suffix) == "otp:" + Lower(a) + (":" + suffix);
      assert Key(b, suffix) == "otp:" + Lower(b) + (":" + suffix);
      CancelAround("otp:", Lower(a), Lower(b), ":" + suffix);
    }
  }

  /** Equal texts with the same frame have the same middle. */
  lemma CancelAround(p: string, x: string, y: string, q: string)
    requires p + x + q == p + y + q
    ensures x == y
  {
    var k := p + x + q;
    assert |x| == |y|;
    assert forall i :: 0 <= i < |x| ==> k[|p| + i] == x[i];
    assert forall i :: 0 <= i < |y| ==> (p + y + q)[|p| + i] == y[i];
  }

  /** A code record and a send bucket never share a key, so keeping them in
      two maps loses nothing of the server's single store. */
  lemma MetaAndBucketKeysDiffer(a: string, b: string)
    ensures MetaKey(a) != BucketKey(b)
  {
    var m, k := MetaKey(a), BucketKey(b);
    assert m[|m| - 1] == 'a';
    assert k[|k| - 1] == 't';
  }

  // ---------------------------------------------------------------------
  // The send bucket and the send cap

  /** The bucket restarts at 1 when there is none or its window is over by
      more than an hour (strictly); otherwise it counts on from its start. */
  lemma BucketWindowRule(rec: Option<Bucket>, now: int)
    ensures rec.None? ==> NextBucket(rec, now) == Bucket(1, now)
    ensures rec.Some? && now - rec.value.start > BucketWindow ==> NextBucket(rec, now) == Bucket(1, now)
    ensures rec.Some? && now - rec.value.start <= BucketWindow ==>
      NextBucket(rec, now) == Bucket(rec.value.count + 1, rec.value.start)
  {
  }

  /** A send is refused exactly when the incremented count exceeds the cap;
      a refused send still counts, and writes no code record. */
  lemma SendRefusal(cfg: Config, hash: string -> string, st: Store, email: string, code: string, now: int)
    requires cfg.configured
    ensures var (st', out) := Send(cfg, hash, st, email, code, now);
      (out == TooManyRequests <==> NextBucket(BucketOf(st, email), now).count > cfg.maxSends) &&
      st'.buckets == st.buckets[BucketKey(email) := NextBucket(BucketOf(st, email), now)] &&
      (out == TooManyRequests ==> st'.metas == st.metas)
  {
  }

  /** A successful send replaces the address's record with a fresh one for
      the new code; nothing else in the store changes. */
  lemma SendReplacesRecord(cfg: Config, hash: string -> string, st: Store, email: string, code: string, now: int)
    requires Send(cfg, hash, st, email, code, now).1.Sent?
    ensures var st' := Send(cfg, hash, st, email, code, now).0;
      st'.metas == st.metas[MetaKey(email) := Meta(hash(code), now + cfg.ttl, 0)] &&
      st'.buckets.Keys == st.buckets.Keys + {BucketKey(email)}
  {
  }

  /** Without configuration nothing is counted or stored. */
  lemma UnconfiguredSendChangesNothing(cfg: Config, hash: string -> string, st: Store, email: string, code: string, now: int)
    requires !cfg.configured
    ensures Send(cfg, hash, st, email, code, now) == (st, NotConfigured)
  {
  }

  /** Sends at times within one hour of a fresh window: the n-th send counts n. */
  function SendAll(cfg: Config, hash: string -> string, st: Store, email: string, code: string, times: seq<int>): (Store, seq<SendOutcome>)
    decreases |times|
  {
    if times == [] then (st, [])
    else
      var (st1, out) := Send(cfg, hash, st, email, code, times[0]);
      var (st2, outs) := SendAll(cfg, hash, st1, email, code, times[1..]);
      (st2, [out] + outs)
  }

  /** Starting from bucket `b`, sends at non-decreasing times that all stay
      within the hour of `b.start` are counted on from `b.count`: the i-th is
      refused exactly when `b.count + i + 1` exceeds the cap. */
  lemma {:induction false} SendsWithinHour(cfg: Config, hash: string -> string, st: Store, email: string, code: string, times: seq<int>)
    requires cfg.configured
    requires BucketOf(st, email).Some?
    requires forall i :: 0 <= i < |times| ==> times[i] - BucketOf(st, email).value.start <= BucketWindow
    ensures var outs := SendAll(cfg, hash, st, email, code, times).1;
      |outs| == |times| &&
      forall i :: 0 <= i < |times| ==>
        outs[i] == (if BucketOf(st, email).value.count + i + 1 > cfg.maxSends then TooManyRequests else Sent(cfg.ttl))
    decreases |times|
  {
    if times != [] {
      var b := BucketOf(st, email).value;
      var st1 := Send(cfg, hash, st, email, code, times[0]).0;
      assert BucketOf(st1, email) == Some(Bucket(b.count + 1, b.start));
      assert forall i :: 0 <= i < |times[1..]| ==> times[1..][i] == times[i + 1];
      SendsWithinHour(cfg, hash, st1, email, code, times[1..]);
    }
  }

  /** Six sends to one address within an hour, under the default cap of five:
      the first five are accepted and the sixth is refused. */
  lemma SixthSendInAnHourRefused(hash: string -> string, st: Store, email: string, code: string, t0: int, times: seq<int>)
    requires BucketOf(st, email).None?
    requires |times| == 5
    requires forall i :: 0 <= i < 5 ==> t0 <= times[i] <= t0 + BucketWindow
    ensures var outs := SendAll(DefaultConfig, hash, st, email, code, [t0] + times).1;
      |outs| == 6 &&
      (forall i :: 0 <= i < 5 ==> outs[i].Sent?) &&
      outs[5] == TooManyRequests
  {
    var cfg := DefaultConfig;
    var all := [t0] + times;
    var st1 := Send(cfg, hash, st, email, code, t0).0;
    assert BucketOf(st1, email) == Some(Bucket(1, t0));
    assert all[1..] == times;
    SendsWithinHour(cfg, hash, st1, email, code, times);
  }

  // ---------------------------------------------------------------------
  // Verification

  /** No record: `no_pending`, and the store is left as it was. */
  lemma VerifyWithoutRecord(cfg: Config, hash: string -> string, st: Store, email: string, code: string, now: int)
    requires MetaKey(email) !in st.metas
    ensures Verify(cfg, hash, st, email, code, now) == (st, NoPending)
  {
  }

  /** Past the expiry time (strictly): the record is deleted and the answer is `expired`. */
  lemma VerifyAfterExpiry(cfg: Config, hash: string -> string, st: Store, email: string, code: string, now: int)
    requires MetaKey(email) in st.metas && now > st.metas[MetaKey(email)].exp
    ensures var (st', out) := Verify(cfg, hash, st, email, code, now);
      out == Expired && MetaKey(email) !in st'.metas && st'.buckets == st.buckets
  {
  }

  /** Every verification before expiry counts an attempt. Past the attempt
      limit the answer is `too_many_attempts`, even for the right code, and
      the record stays; a wrong code within the limit gives `incorrect_code`
      and the record stays; the right code within the limit verifies and
      deletes the record. */
  lemma VerifyCountsAttempt(cfg: Config, hash: string -> string, st: Store, email: string, code: string, now: int)
    requires MetaKey(email) in st.metas
    requires now <= st.metas[MetaKey(email)].exp
    ensures var m := st.metas[MetaKey(email)];
      var (st', out) := Verify(cfg, hash, st, email, code, now);
      st'.buckets == st.buckets &&
      (m.attempts + 1 > cfg.maxAttempts ==>
        out == TooManyAttempts && st'.metas == st.metas[MetaKey(email) := m.(attempts := m.attempts + 1)]) &&
      (m.attempts + 1 <= cfg.maxAttempts && hash(code) != m.hash ==>
        out == IncorrectCode && st'.metas == st.metas[MetaKey(email) := m.(attempts := m.attempts + 1)]) &&
      (m.attempts + 1 <= cfg.maxAttempts && hash(code) == m.hash ==>
        out == Verified && st'.metas == st.metas - {MetaKey(email)})
  {
  }

  /** Verification succeeds only with a record, before its expiry, within the
      attempt limit and with the code whose hash was stored. */
  lemma VerifiedOnlyWithMatchingCode(cfg: Config, hash: string -> string, st: Store, email: string, code: string, now: int)
    requires Verify(cfg, hash, st, email, code, now).1 == Verified
    ensures MetaKey(email) in st.metas
    ensures now <= st.metas[MetaKey(email)].exp
    ensures st.metas[MetaKey(email)].attempts + 1 <= cfg.maxAttempts
    ensures hash(code) == st.metas[MetaKey(email)].hash
  {
  }

  /** A successful verification consumes the record: verifying again answers `no_pending`. */
  lemma VerifiedCodeIsConsumed(cfg: Config, hash: string -> string, st: Store, email: string, code: string, code2: string, now: int, later: int)
    requires Verify(cfg, hash, st, email, code, now).1 == Verified
    ensures var st' := Verify(cfg, hash, st, email, code, now).0;
      Verify(cfg, hash, st', email, code2, later) == (st', NoPending)
  {
  }

  /** Verifications of one address with the given codes, in order, at the given times. */
  function VerifyAll(cfg: Config, hash: string -> string, st: Store, email: string, codes: seq<string>, times: seq<int>): (Store, seq<VerifyOutcome>)
    requires |codes| == |times|
    decreases |codes|
  {
    if codes == [] then (st, [])
    else
      var (st1, out) := Verify(cfg, hash, st, email, codes[0], times[0]);
      var (st2, outs) := VerifyAll(cfg, hash, st1, email, codes[1..], times[1..]);
      (st2, [out] + outs)
  }

  /** Against a record with `a` attempts used, wrong codes tried before its
      expiry give `incorrect_code` while the count stays within the limit and
      `too_many_attempts` after it. */
  lemma {:induction false} WrongCodesExhaustAttempts(cfg: Config, hash: string -> string, st: Store, email: string, codes: seq<string>, times: seq<int>)
    requires |codes| == |times|
    requires MetaKey(email) in st.metas
    requires forall i :: 0 <= i < |codes| ==> hash(codes[i]) != st.metas[MetaKey(email)].hash
    requires forall i :: 0 <= i < |times| ==> times[i] <= st.metas[MetaKey(email)].exp
    ensures var a := st.metas[MetaKey(email)].attempts;
      var outs := VerifyAll(cfg, hash, st, email, codes, times).1;
      |outs| == |codes| &&
      forall i :: 0 <= i < |codes| ==>
        outs[i] == (if a + i + 1 > cfg.maxAttempts then TooManyAttempts else IncorrectCode)
    decreases |codes|
  {
    if codes != [] {
      var k := MetaKey(email);
      var m := st.metas[k];
      var st1 := Verify(cfg, hash, st, email, codes[0], times[0]).0;
      assert st1.metas[k] == m.(attempts := m.attempts + 1);
      assert forall i :: 0 <= i < |codes[1..]| ==> codes[1..][i] == codes[i + 1] && times[1..][i] == times[i + 1];
      WrongCodesExhaustAttempts(cfg, hash, st1, email, codes[1..], times[1..]);
    }
  }

  /** Right after a send with the default limits, six wrong codes before
      expiry give `incorrect_code` five times, then `too_many_attempts`. */
  lemma SixWrongCodesAfterSend(hash: string -> string, st: Store, email: string, code: string, now: int, wrong: seq<string>, times: seq<int>)
    requires Send(DefaultConfig, hash, st, email, code, now).1.Sent?
    requires |wrong| == 6 && |times| == 6
    requires forall i :: 0 <= i < 6 ==> hash(wrong[i]) != hash(code)
    requires forall i :: 0 <= i < 6 ==> times[i] <= now + DefaultTtlSeconds
    ensures var st1 := Send(DefaultConfig, hash, st, email, code, now).0;
      VerifyAll(DefaultConfig, hash, st1, email, wrong, times).1 ==
        [IncorrectCode, IncorrectCode, IncorrectCode, IncorrectCode, IncorrectCode, TooManyAttempts]
  {
    var st1 := Send(DefaultConfig, hash, st, email, code, now).0;
    WrongCodesExhaustAttempts(DefaultConfig, hash, st1, email, wrong, times);
  }

  /** Re-sending replaces the code: with an injective hash, a code issued
      earlier no longer verifies once a different one has been sent, and the new
      one verifies straight away. */
  lemma ResendInvalidatesOldCode(cfg: Config, hash: string -> string, st: Store, email: string, oldCode: string, newCode: string, now: int, later: int)
    requires Injective(hash)
    requires oldCode != newCode
    requires 1 <= cfg.maxAttempts
    requires Send(cfg, hash, st, email, newCode, now).1.Sent?
    requires later <= now + cfg.ttl
    ensures var st1 := Send(cfg, hash, st, email, newCode, now).0;
      Verify(cfg, hash, st1, email, oldCode, later).1 == IncorrectCode &&
      Verify(cfg, hash, st1, email, newCode, later).1 == Verified
  {
  }

  /** Operations on one address leave every other address's records alone. */
  lemma OtherAddressesUntouched(cfg: Config, hash: string -> string, st: Store, email: string, other: string, code: string, now: int)
    requires Lower(email) != Lower(other)
    ensures var st' := Send(cfg, hash, st, email, code, now).0;
      (MetaKey(other) in st'.metas <==> MetaKey(other) in st.metas) &&
      (MetaKey(other) in st.metas ==> st'.metas[MetaKey(other)] == st.metas[MetaKey(other)]) &&
      BucketOf(st', other) == BucketOf(st, other)
    ensures var st' := Verify(cfg, hash, st, email, code, now).0;
      (MetaKey(other) in st'.metas <==> MetaKey(other) in st.metas) &&
      (MetaKey(other) in st.metas ==> st'.metas[MetaKey(other)] == st.metas[MetaKey(other)]) &&
      st'.buckets == st.buckets
  {
    KeyIgnoresCase(email, other, "meta");
    KeyIgnoresCase(email, other, "bucket");
  }

  /** Addresses that differ only in case share one record. */
  lemma CaseVariantsShareRecord(cfg: Config, hash: string -> string, st: Store, email: string, variant: string, code: string, now: int)
    requires Lower(email) == Lower(variant)
    ensures Verify(cfg, hash, st, email, code, now) == Verify(cfg, hash, st, variant, code, now)
    ensures Send(cfg, hash, st, email, code, now) == Send(cfg, hash, st, variant, code, now)
  {
  }
}
