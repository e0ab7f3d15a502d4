/**
 * The in-memory captcha store: captcha id -> (answer, expiry), with
 * insert-overwrite, verify-and-consume and the sweep of expired entries.
 * Timestamps are whole seconds; the current time is a parameter.
 * The store is modelled sequentially: every operation runs to completion
 * before the next one starts.
 */
module State {
  import opened Text
  import UserService

  /** One issued captcha: the expected answer and the instant after which it is expired. */
  datatype CaptchaEntry = CaptchaEntry(answer: string, expiresAt: int)

  /** Expired strictly after `expiresAt`: an entry is still live at the instant it expires. */
  predicate Expired(e: CaptchaEntry, now: int) {
    e.expiresAt < now
  }

  /** The submission, trimmed, equals the stored answer up to ASCII case; the stored answer is not trimmed. */
  predicate Matches(answer: string, input: string) {
    EqIgnoreAsciiCase(answer, Trim(input))
  }

  /**
   * What one verify-and-consume call does to the map, stated declaratively:
   * the result is true exactly for a live entry whose answer matches, and the
   * id is removed exactly when it was present and either expired or matched.
   */
  function Consume(m: map<string, CaptchaEntry>, id: string, input: string, now: int): (r: (bool, map<string, CaptchaEntry>))
    ensures r.0 ==> id in m && id !in r.1
    ensures r.1 == m || r.1 == m - {id}
  {
    var live := id in m && !Expired(m[id], now);
    var ok := live && Matches(m[id].answer, input);
    (ok, if id in m && (ok || !live) then m - {id} else m)
  }

  /** The entries a sweep at `now` keeps: those not yet expired. */
  function Retained(m: map<string, CaptchaEntry>, now: int): (r: map<string, CaptchaEntry>)
    ensures r.Keys <= m.Keys
    ensures forall id :: id in r ==> r[id] == m[id] && !Expired(r[id], now)
    ensures forall id :: id in m && !Expired(m[id], now) ==> id in r
  {
    map id | id in m && m[id].expiresAt >= now :: m[id]
  }

  class CaptchaStore {
    var entries: map<string, CaptchaEntry>

    /** `CaptchaStore::default()`: an empty store. */
    constructor ()
      ensures entries == map[]
    {
      entries := map[];
    }

    /** `insert`: stores `entry` under `id`, silently replacing an earlier entry with that id. */
    method Insert(id: string, entry: CaptchaEntry)
      modifies this
      ensures entries == old(entries)[id := entry]
      ensures id in entries && entries[id] == entry
      ensures forall k :: k != id ==> (k in entries <==> k in old(entries)) && (k in entries ==> entries[k] == old(entries)[k])
    {
      entries := entries[id := entry];
    }

    /**
     * `verify_and_consume`: absent gives false; expired is removed and gives
     * false; a match is removed and gives true; a mismatch is kept and gives false.
     */
    method VerifyAndConsume(id: string, input: string, now: int) returns (ok: bool)
      modifies this
      ensures (ok, entries) == Consume(old(entries), id, input, now)
    {
      if id !in entries {
        return false;
      }
      var entry := entries[id];
      if entry.expiresAt < now {
        entries := entries - {id};
        return false;
      }
      ok := EqIgnoreAsciiCase(entry.answer, Trim(input));
      if ok {
        entries := entries - {id};
      }
    }

    /** `cleanup_expired`: keeps exactly the entries with `expiresAt >= now`. */
    method CleanupExpired(now: int)
      modifies this
      ensures entries == Retained(old(entries), now)
    {
      entries := map id | id in entries && entries[id].expiresAt >= now :: entries[id];
    }
  }

  // Properties of a single call

  /** An absent id gives false and leaves the map unchanged. */
  lemma ConsumeAbsent(m: map<string, CaptchaEntry>, id: string, input: string, now: int)
    requires id !in m
    ensures Consume(m, id, input, now) == (false, m)
  {
  }

  /** An expired entry gives false even for its exact answer, and exactly that id is removed. */
  lemma ConsumeExpired(m: map<string, CaptchaEntry>, id: string, input: string, now: int)
    requires id in m && m[id].expiresAt < now
    ensures Consume(m, id, input, now) == (false, m - {id})
  {
  }

  /** A live entry: true and removed on a match, false and untouched on a mismatch. */
  lemma ConsumeLive(m: map<string, CaptchaEntry>, id: string, input: string, now: int)
    requires id in m && m[id].expiresAt >= now
    ensures Matches(m[id].answer, input) ==> Consume(m, id, input, now) == (true, m - {id})
    ensures !Matches(m[id].answer, input) ==> Consume(m, id, input, now) == (false, m)
  {
  }

  /** The result is true exactly when the entry is present, live and matched. */
  lemma ConsumeResult(m: map<string, CaptchaEntry>, id: string, input: string, now: int)
    ensures Consume(m, id, input, now).0 <==> id in m && !Expired(m[id], now) && Matches(m[id].answer, input)
  {
  }

  /**
   * An entry whose expiry is exactly `now` is still accepted, with any
   * submission equal to its answer up to ASCII case and padded with whitespace.
   */
  lemma ConsumeAtExpiryInstant(m: map<string, CaptchaEntry>, id: string, w1: string, core: string, w2: string, now: int)
    requires id in m && m[id].expiresAt == now
    requires AllWhitespace(w1) && AllWhitespace(w2) && IsTrimmed(core)
    requires EqIgnoreAsciiCase(m[id].answer, core)
    ensures Consume(m, id, w1 + core + w2, now) == (true, m - {id})
  {
    PaddedTrim(w1, core, w2);
  }

  // Sweep

  /** Sweeping twice at the same instant is the same as sweeping once. */
  lemma RetainedIdempotent(m: map<string, CaptchaEntry>, now: int)
    ensures Retained(Retained(m, now), now) == Retained(m, now)
  {
  }

  /** A sweep at an earlier instant followed by one at a later instant equals the later sweep alone. */
  lemma RetainedMonotone(m: map<string, CaptchaEntry>, earlier: int, later: int)
    requires earlier <= later
    ensures Retained(Retained(m, earlier), later) == Retained(m, later)
  {
  }

  /** Entries a sweep keeps are never treated as expired by verify-and-consume at that instant. */
  lemma SweptEntriesAreLive(m: map<string, CaptchaEntry>, now: int, id: string, input: string)
    requires id in Retained(m, now)
    ensures Consume(Retained(m, now), id, input, now).0 == Matches(m[id].answer, input)
    ensures Consume(Retained(m, now), id, input, now).1 ==
            if Matches(m[id].answer, input) then Retained(m, now) - {id} else Retained(m, now)
  {
  }

  // Sequences of operations: at-most-once consumption

  /** One operation on the store, as the handlers and the background sweep issue them. */
  datatype StoreOp =
    | OpInsert(id: string, entry: CaptchaEntry)
    | OpVerify(id: string, input: string, now: int)
    | OpSweep(now: int)

  /** The effect of one operation: its boolean answer (false for insert and sweep) and the new map. */
  function Step(m: map<string, CaptchaEntry>, op: StoreOp): (bool, map<string, CaptchaEntry>) {
    match op
    case OpInsert(id, e) => (false, m[id := e])
    case OpVerify(id, input, now) => Consume(m, id, input, now)
    case OpSweep(now) => (false, Retained(m, now))
  }

  /** No operation in `ops` inserts under `id`. */
  predicate NoInsertOf(ops: seq<StoreOp>, id: string) {
    forall i :: 0 <= i < |ops| ==> !(ops[i].OpInsert? && ops[i].id == id)
  }

  /** How many verifications of `id` succeed when `ops` run in order from `m`. */
  function Wins(m: map<string, CaptchaEntry>, id: string, ops: seq<StoreOp>): nat
    decreases |ops|
  {
    if ops == [] then 0
    else
      var (ok, m') := Step(m, ops[0]);
      (if ops[0].OpVerify? && ops[0].id == id && ok then 1 else 0) + Wins(m', id, ops[1..])
  }

  /** Once an id is gone, no later operation sequence without a re-insert brings it back or accepts it. */
  lemma {:induction false} AbsentStaysAbsent(m: map<string, CaptchaEntry>, id: string, ops: seq<StoreOp>)
    requires id !in m
    requires NoInsertOf(ops, id)
    ensures Wins(m, id, ops) == 0
    decreases |ops|
  {
    if ops != [] {
      var (ok, m') := Step(m, ops[0]);
      assert !(ops[0].OpInsert? && ops[0].id == id);
      assert id !in m';
      assert NoInsertOf(ops[1..], id) by {
        forall i | 0 <= i < |ops| - 1 ensures !(ops[1..][i].OpInsert? && ops[1..][i].id == id) {
          assert ops[1..][i] == ops[i + 1];
        }
      }
      AbsentStaysAbsent(m', id, ops[1..]);
    }
  }

  /** At most once: without a re-insert of `id`, at most one verification of `id` returns true. */
  lemma {:induction false} AtMostOnce(m: map<string, CaptchaEntry>, id: string, ops: seq<StoreOp>)
    requires NoInsertOf(ops, id)
    ensures Wins(m, id, ops) <= 1
    decreases |ops|
  {
    if ops != [] {
      var (ok, m') := Step(m, ops[0]);
      assert !(ops[0].OpInsert? && ops[0].id == id);
      assert NoInsertOf(ops[1..], id) by {
        forall i | 0 <= i < |ops| - 1 ensures !(ops[1..][i].OpInsert? && ops[1..][i].id == id) {
          assert ops[1..][i] == ops[i + 1];
        }
      }
      if ops[0].OpVerify? && ops[0].id == id && ok {
        AbsentStaysAbsent(m', id, ops[1..]);
      } else {
        AtMostOnce(m', id, ops[1..]);
      }
    }
  }

  /** After a successful verification, every later verification of the same id fails until it is re-inserted. */
  lemma ConsumedThenRejected(m: map<string, CaptchaEntry>, id: string, input: string, now: int, ops: seq<StoreOp>)
    requires Consume(m, id, input, now).0
    requires NoInsertOf(ops, id)
    ensures Wins(Consume(m, id, input, now).1, id, ops) == 0
  {
    AbsentStaysAbsent(Consume(m, id, input, now).1, id, ops);
  }

  /**
   * The state every handler reaches: the users table, the captcha store and
   * the settings the handlers read. The token secret and lifetime are fields
   * here, as the bootstrap code and the handlers use them.
   */
  class AppState {
    const db: UserService.UserTable
    const captchaStore: CaptchaStore
    const debugCaptcha: bool
    const jwtSecret: string
    const jwtExpireSeconds: int

    constructor (db: UserService.UserTable, captchaStore: CaptchaStore, debugCaptcha: bool,
                 jwtSecret: string, jwtExpireSeconds: int)
      ensures this.db == db && this.captchaStore == captchaStore && this.debugCaptcha == debugCaptcha
      ensures this.jwtSecret == jwtSecret && this.jwtExpireSeconds == jwtExpireSeconds
    {
      this.db := db;
      this.captchaStore := captchaStore;
      this.debugCaptcha := debugCaptcha;
      this.jwtSecret := jwtSecret;
      this.jwtExpireSeconds := jwtExpireSeconds;
    }
  }
}
