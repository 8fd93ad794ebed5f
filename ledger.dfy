/**
 * The spin ledger's pure parts: the active mode and catalog, the storage keys
 * of a (date, user, mode) partition, the bounded most-recent-first history, and
 * the typed view of the browser's string-keyed store.
 */
module Ledger {
  import opened Types
  import opened Constants
  import opened Outcome

  /** The key under which the last profile is kept between visits. */
  const SessionKey: string := "spin_user_session"

  /** The active mode: the profile's mode, REGULER when there is no profile or it carries none. */
  function ModeOf(user: Option<UserProfile>): (m: SpinMode)
    ensures m == EXCLUSIVE <==> user.Some? && user.value.selectedMode == Some(EXCLUSIVE)
  {
    if user.Some? && user.value.selectedMode.Some? then user.value.selectedMode.value else REGULER
  }

  /** The catalog shown on the wheel for a mode. */
  function ActivePrizes(m: SpinMode): (ps: seq<Prize>)
    ensures ps == ExclusivePrizes() <==> m == EXCLUSIVE
    ensures ps == RegulerPrizes() <==> m == REGULER
    ensures |ps| == 12 && WholeHalfSegments(|ps|)
  {
    var exclusive, reguler := ExclusivePrizes(), RegulerPrizes();
    assert exclusive != reguler by {
      assert exclusive[1].text != reguler[1].text;
    }
    match m
    case EXCLUSIVE => exclusive
    case REGULER => reguler
  }

  datatype StorageKeys = StorageKeys(countKey: string, historyKey: string)

  /** The partition prefix "spin_v3_<date>_<name>_<mode>", built as its date part and its name part. */
  function KeyPrefix(date: string, name: string, m: SpinMode): string
  {
    DatePart(date) + NamePart(name, m)
  }

  function DatePart(date: string): string
  {
    "spin_v3_" + date + "_"
  }

  function NamePart(name: string, m: SpinMode): string
  {
    name + "_" + ModeName(m)
  }

  /** The keys of the current partition; both empty exactly when nobody has entered. */
  function GetKeys(user: Option<UserProfile>, date: string): (keys: StorageKeys)
    ensures user.None? <==> keys.countKey == ""
    ensures user.None? <==> keys.historyKey == ""
  {
    if user.None? then StorageKeys("", "")
    else
      var prefix := KeyPrefix(date, user.value.name, ModeOf(user));
      StorageKeys(prefix + "_count", prefix + "_history")
  }

  /**
   * The two keys of a partition start with its date part and carry the same
   * partition prefix in front of their suffixes.
   */
  lemma KeysSharePrefix(user: Option<UserProfile>, date: string)
    requires user.Some?
    ensures var k := GetKeys(user, date);
      && |k.countKey| >= 6 && |k.historyKey| >= 8
      && k.countKey[..|k.countKey| - 6] == k.historyKey[..|k.historyKey| - 8]
      && |DatePart(date)| <= |k.countKey|
      && k.countKey[..|DatePart(date)|] == DatePart(date)
  {
    var prefix := KeyPrefix(date, user.value.name, ModeOf(user));
    assert (prefix + "_count")[..|prefix|] == prefix;
    assert (prefix + "_history")[..|prefix|] == prefix;
    assert prefix[..|DatePart(date)|] == DatePart(date);
  }

  predicate EndsWith(s: string, suffix: string)
  {
    |suffix| <= |s| && s[|s| - |suffix|..] == suffix
  }

  lemma EndsWithAppend(p: string, suffix: string)
    ensures EndsWith(p + suffix, suffix)
  {
    assert (p + suffix)[|p|..] == suffix;
  }

  /** A string ends with the last letter of any non-empty suffix it ends with. */
  lemma EndsWithLastLetter(s: string, suffix: string)
    requires |suffix| > 0 && EndsWith(s, suffix)
    ensures s[|s| - 1] == suffix[|suffix| - 1]
  {
    assert s[|s| - 1] == s[|s| - |suffix|..][|suffix| - 1];
  }

  /** Count keys end in 't', history keys in 'y' and the session key in 'n'. */
  lemma KeyLastLetters(user: Option<UserProfile>, date: string)
    requires user.Some?
    ensures var k := GetKeys(user, date);
      && EndsWith(k.countKey, "_count") && k.countKey[|k.countKey| - 1] == 't'
      && EndsWith(k.historyKey, "_history") && k.historyKey[|k.historyKey| - 1] == 'y'
  {
    var prefix := KeyPrefix(date, user.value.name, ModeOf(user));
    EndsWithAppend(prefix, "_count");
    EndsWithAppend(prefix, "_history");
    EndsWithLastLetter(prefix + "_count", "_count");
    EndsWithLastLetter(prefix + "_history", "_history");
  }

  /**
   * With a user, the count key ends in "_count" and the history key in
   * "_history", so the two differ and neither is the session key; with no user
   * both keys are empty.
   */
  lemma KeysShape(user: Option<UserProfile>, date: string)
    ensures var k := GetKeys(user, date);
      user.None? ==> k.countKey == "" && k.historyKey == ""
    ensures var k := GetKeys(user, date);
      user.Some? ==>
        && EndsWith(k.countKey, "_count") && !EndsWith(k.countKey, "_history")
        && EndsWith(k.historyKey, "_history") && !EndsWith(k.historyKey, "_count")
        && k.countKey != k.historyKey
        && k.countKey != SessionKey && k.historyKey != SessionKey
  {
    if user.Some? {
      var k := GetKeys(user, date);
      KeyLastLetters(user, date);
      assert SessionKey[|SessionKey| - 1] == 'n';
      if EndsWith(k.countKey, "_history") {
        EndsWithLastLetter(k.countKey, "_history");
      }
      if EndsWith(k.historyKey, "_count") {
        EndsWithLastLetter(k.historyKey, "_count");
      }
    }
  }

  /** Two concatenations with equally long left parts agree part by part. */
  lemma SplitEqual(a1: string, b1: string, a2: string, b2: string)
    requires |a1| == |a2| && a1 + b1 == a2 + b2
    ensures a1 == a2 && b1 == b2
  {
    assert a1 == (a1 + b1)[..|a1|];
    assert a2 == (a2 + b2)[..|a2|];
    assert b1 == (a1 + b1)[|a1|..];
    assert b2 == (a2 + b2)[|a2|..];
  }

  /** The last letter of a mode's name tells the modes apart. */
  lemma ModeNameLastLetter(x1: string, m1: SpinMode, x2: string, m2: SpinMode)
    requires x1 + ModeName(m1) == x2 + ModeName(m2)
    ensures m1 == m2 && x1 == x2
  {
    var s1, s2 := x1 + ModeName(m1), x2 + ModeName(m2);
    assert s1[|s1| - 1] == ModeName(m1)[|ModeName(m1)| - 1];
    assert s2[|s2| - 1] == ModeName(m2)[|ModeName(m2)| - 1];
    DropSuffix(x1, x2, ModeName(m1));
  }

  /**
   * Partition prefixes of equally long dates determine the date, the user name
   * and the mode: distinct users, modes and days never share a key.
   */
  lemma KeyPrefixInjective(d1: string, n1: string, m1: SpinMode, d2: string, n2: string, m2: SpinMode)
    requires |d1| == |d2|
    requires KeyPrefix(d1, n1, m1) == KeyPrefix(d2, n2, m2)
    ensures d1 == d2 && n1 == n2 && m1 == m2
  {
    var a1, a2 := DatePart(d1), DatePart(d2);
    SplitEqual(a1, NamePart(n1, m1), a2, NamePart(n2, m2));
    assert d1 == a1[8..8 + |d1|] && d2 == a2[8..8 + |d2|];
    ModeNameLastLetter(n1 + "_", m1, n2 + "_", m2);
    DropSuffix(n1, n2, "_");
  }

  lemma DropSuffix(p: string, q: string, suffix: string)
    requires p + suffix == q + suffix
    ensures p == q
  {
    assert p == (p + suffix)[..|p|];
    assert q == (q + suffix)[..|q|];
  }

  /**
   * Two users' partitions on equally long dates share a count key, or a history
   * key, only when date, name and active mode all agree; a count key is never
   * another partition's history key.
   */
  lemma KeysInjective(u1: Option<UserProfile>, d1: string, u2: Option<UserProfile>, d2: string)
    requires u1.Some? && u2.Some? && |d1| == |d2|
    ensures var k1, k2 := GetKeys(u1, d1), GetKeys(u2, d2);
      (k1.countKey == k2.countKey || k1.historyKey == k2.historyKey) ==>
        d1 == d2 && u1.value.name == u2.value.name && ModeOf(u1) == ModeOf(u2)
    ensures GetKeys(u1, d1).countKey != GetKeys(u2, d2).historyKey
  {
    var k1, k2 := GetKeys(u1, d1), GetKeys(u2, d2);
    var p1 := KeyPrefix(d1, u1.value.name, ModeOf(u1));
    var p2 := KeyPrefix(d2, u2.value.name, ModeOf(u2));
    if k1.countKey == k2.countKey {
      DropSuffix(p1, p2, "_count");
      KeyPrefixInjective(d1, u1.value.name, ModeOf(u1), d2, u2.value.name, ModeOf(u2));
    }
    if k1.historyKey == k2.historyKey {
      DropSuffix(p1, p2, "_history");
      KeyPrefixInjective(d1, u1.value.name, ModeOf(u1), d2, u2.value.name, ModeOf(u2));
    }
    KeyLastLetters(u1, d1);
    KeyLastLetters(u2, d2);
  }

  /**
   * For one user, the partitions of two different days (dates of one length)
   * share no key with each other or with the session key.
   */
  lemma DaysApart(user: Option<UserProfile>, d1: string, d2: string)
    requires user.Some? && |d1| == |d2| && d1 != d2
    ensures var k1, k2 := GetKeys(user, d1), GetKeys(user, d2);
      && k1.countKey != k1.historyKey && k2.countKey != k2.historyKey
      && SessionKey != k1.countKey && SessionKey != k1.historyKey
      && SessionKey != k2.countKey && SessionKey != k2.historyKey
      && k2.countKey != k1.countKey && k2.countKey != k1.historyKey
      && k2.historyKey != k1.countKey && k2.historyKey != k1.historyKey
  {
    KeysShape(user, d1);
    KeysShape(user, d2);
    KeysInjective(user, d1, user, d2);
    KeysInjective(user, d2, user, d1);
  }

  /** The same user on the same day keeps REGULER and EXCLUSIVE in separate partitions. */
  lemma ModesNeverShare(u1: Option<UserProfile>, u2: Option<UserProfile>, date: string)
    requires u1.Some? && u2.Some? && u1.value.name == u2.value.name
    requires ModeOf(u1) != ModeOf(u2)
    ensures var k1, k2 := GetKeys(u1, date), GetKeys(u2, date);
      k1.countKey != k2.countKey && k1.historyKey != k2.historyKey
      && k1.countKey != k2.historyKey && k1.historyKey != k2.countKey
  {
    KeysInjective(u1, date, u2, date);
    KeysInjective(u2, date, u1, date);
  }

  function Min(a: int, b: int): int
  {
    if a < b then a else b
  }

  /** The new result in front of the old history, keeping the five most recent. */
  function PushHistory(r: SpinResult, h: seq<SpinResult>): (h': seq<SpinResult>)
    ensures |h'| == Min(5, |h| + 1)
    ensures h'[0] == r
    ensures h'[1..] == h[..|h'| - 1]
  {
    ([r] + h)[..Min(5, |h| + 1)]
  }

  /** The history after recording `rs` in order, starting from `h`. */
  function HistoryAfter(h: seq<SpinResult>, rs: seq<SpinResult>): seq<SpinResult>
    decreases |rs|
  {
    if rs == [] then h else HistoryAfter(PushHistory(rs[0], h), rs[1..])
  }

  function Reverse<T>(s: seq<T>): (r: seq<T>)
    ensures |r| == |s|
  {
    if s == [] then [] else Reverse(s[1..]) + [s[0]]
  }

  /**
   * However many spins are recorded, the history holds the five most recent,
   * newest first, followed by what was there before, up to five in all.
   */
  lemma {:induction false} HistoryAfterKeepsMostRecent(h: seq<SpinResult>, rs: seq<SpinResult>)
    requires |h| <= 5
    ensures HistoryAfter(h, rs) == (Reverse(rs) + h)[..Min(5, |rs| + |h|)]
    decreases |rs|
  {
    if rs == [] {
    } else {
      var h1 := PushHistory(rs[0], h);
      HistoryAfterKeepsMostRecent(h1, rs[1..]);
      var t := Reverse(rs[1..]);
      assert Reverse(rs) + h == t + ([rs[0]] + h);
      var whole := t + ([rs[0]] + h);
      var k := Min(5, |rs| + |h|);
      assert (t + h1)[..k] == whole[..k] by {
        forall i | 0 <= i < k
          ensures (t + h1)[i] == whole[i]
        {
          if i >= |t| {
            assert (t + h1)[i] == h1[i - |t|];
          }
        }
      }
    }
  }

  /** Seven spins recorded from an empty history leave exactly the last five, newest first. */
  lemma SevenSpinsKeepFive(rs: seq<SpinResult>)
    requires |rs| == 7
    ensures HistoryAfter([], rs) == [rs[6], rs[5], rs[4], rs[3], rs[2]]
  {
    HistoryAfterKeepsMostRecent([], rs);
    assert Reverse(rs) == [rs[6], rs[5], rs[4], rs[3], rs[2], rs[1], rs[0]] by {
      assert Reverse(rs[6..]) == [rs[6]];
      assert Reverse(rs[5..]) == [rs[6], rs[5]];
      assert Reverse(rs[4..]) == [rs[6], rs[5], rs[4]];
      assert Reverse(rs[3..]) == [rs[6], rs[5], rs[4], rs[3]];
      assert Reverse(rs[2..]) == [rs[6], rs[5], rs[4], rs[3], rs[2]];
      assert Reverse(rs[1..]) == [rs[6], rs[5], rs[4], rs[3], rs[2], rs[1]];
    }
  }

  /** The history is numbered downwards from the counter: entry i is spin number count - i. */
  predicate Numbered(count: int, h: seq<SpinResult>)
  {
    forall i :: 0 <= i < |h| ==> h[i].spinNumber == count - i
  }

  /** Recording spin number count + 1 keeps the history numbered from the new counter. */
  lemma PushKeepsNumbering(count: int, h: seq<SpinResult>, r: SpinResult)
    requires Numbered(count, h) && r.spinNumber == count + 1
    ensures Numbered(count + 1, PushHistory(r, h))
  {
    var h' := PushHistory(r, h);
    forall i | 0 <= i < |h'|
      ensures h'[i].spinNumber == count + 1 - i
    {
      if i > 0 {
        assert h'[i] == h'[1..][i - 1] == h[i - 1];
      }
    }
  }

  /** A value in the store, as the app wrote it. */
  datatype Stored = CountEntry(n: nat) | HistoryEntry(h: seq<SpinResult>) | ProfileEntry(p: UserProfile)

  /** A counter key holds a count, a history key at most five results, the session key a profile. */
  predicate Fits(k: string, v: Stored)
  {
    && (EndsWith(k, "_count") ==> v.CountEntry?)
    && (EndsWith(k, "_history") ==> v.HistoryEntry? && |v.h| <= 5)
    && (k == SessionKey ==> v.ProfileEntry?)
  }

  /** The entry under `k`, if there is one, fits its key. */
  ghost predicate EntryFits(store: map<string, Stored>, k: string)
  {
    k in store ==> Fits(k, store[k])
  }

  /** Every entry fits its key: what this app's own writes leave in the store. */
  ghost predicate WellFormed(store: map<string, Stored>)
  {
    forall k {:trigger EntryFits(store, k)} :: EntryFits(store, k)
  }

  /** The partition's entries, where present, are a counter and a history. */
  predicate Readable(store: map<string, Stored>, k: StorageKeys)
  {
    && (k.countKey in store ==> store[k.countKey].CountEntry?)
    && (k.historyKey in store ==> store[k.historyKey].HistoryEntry?)
  }

  /** The stored counter, or 0 when the key is absent. */
  function StoredCount(store: map<string, Stored>, k: string): (c: nat)
    requires k in store ==> store[k].CountEntry?
    ensures k !in store ==> c == 0
  {
    if k in store then store[k].n else 0
  }

  /** The stored history, or the empty history when the key is absent. */
  function StoredHistory(store: map<string, Stored>, k: string): (h: seq<SpinResult>)
    requires k in store ==> store[k].HistoryEntry?
    ensures k !in store ==> h == []
  {
    if k in store then store[k].h else []
  }

  /** In a well-formed store a user's partition holds a counter and a history of at most five, if anything. */
  lemma KeysReadable(store: map<string, Stored>, user: Option<UserProfile>, date: string)
    requires WellFormed(store) && user.Some?
    ensures var k := GetKeys(user, date);
      && Readable(store, k)
      && (k.historyKey in store ==> |store[k.historyKey].h| <= 5)
  {
    var k := GetKeys(user, date);
    KeysShape(user, date);
    assert EntryFits(store, k.countKey) && EntryFits(store, k.historyKey);
  }

  /** Writing a value that fits its key keeps the store well-formed. */
  lemma PutKeepsWellFormed(store: map<string, Stored>, key: string, v: Stored)
    requires WellFormed(store) && Fits(key, v)
    ensures WellFormed(store[key := v])
  {
    var store' := store[key := v];
    forall k ensures EntryFits(store', k) {
      if k != key {
        assert EntryFits(store, k);
      }
    }
  }

  /** Writing a counter and a history of at most five to the partition's keys keeps the store well-formed. */
  lemma WriteKeepsWellFormed(store: map<string, Stored>, user: Option<UserProfile>, date: string, c: nat, h: seq<SpinResult>)
    requires WellFormed(store) && |h| <= 5
    ensures var k := GetKeys(user, date);
      WellFormed(store[k.countKey := CountEntry(c)][k.historyKey := HistoryEntry(h)])
  {
    KeysShape(user, date);
    var k := GetKeys(user, date);
    PutKeepsWellFormed(store, k.countKey, CountEntry(c));
    PutKeepsWellFormed(store[k.countKey := CountEntry(c)], k.historyKey, HistoryEntry(h));
  }

  /** Saving the profile under the session key keeps the store well-formed. */
  lemma SessionWriteKeepsWellFormed(store: map<string, Stored>, p: UserProfile)
    requires WellFormed(store)
    ensures WellFormed(store[SessionKey := ProfileEntry(p)])
  {
    assert SessionKey[|SessionKey| - 1] == 'n';
    if EndsWith(SessionKey, "_count") {
      EndsWithLastLetter(SessionKey, "_count");
    }
    if EndsWith(SessionKey, "_history") {
      EndsWithLastLetter(SessionKey, "_history");
    }
    PutKeepsWellFormed(store, SessionKey, ProfileEntry(p));
  }
}
