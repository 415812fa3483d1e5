/** The conversation store of src/Memory/memoryHandler.js: per-conversation
    transcripts bounded to `2 * maxHistory` entries, and per-user model
    preferences with a fallback default. */
module MemoryStore {

  /** One transcript entry, `{ role, content }`. */
  datatype Entry = Entry(role: string, content: string)

  /** Default of the constructor's `maxHistory` parameter. */
  const DefaultMaxHistory: nat := 20

  /** What `getUserModel` answers when nothing usable is stored. */
  const DefaultUserModel: string := "gemini-1.5-flash"

  /** `r` is made of the last `|r|` elements of `s`, in order. */
  ghost predicate IsSuffix<T>(r: seq<T>, s: seq<T>) {
    |r| <= |s| && r == s[|s| - |r|..]
  }

  /** The last `n` elements of `s`. */
  function Last<T>(s: seq<T>, n: nat): (r: seq<T>)
    requires n <= |s|
    ensures |r| == n
  {
    s[|s| - n..]
  }

  /** One `addMessage` on a transcript `h` whose cap is `cap`: `push`, then,
      when the length exceeds `cap`, `splice(0, 2)`, which drops the two
      oldest entries whatever their roles (only one when a single entry is
      left, which happens when `cap` is 0). */
  function Push(h: seq<Entry>, e: Entry, cap: nat): (r: seq<Entry>)
    ensures IsSuffix(r, h + [e])
    ensures |h| < cap ==> r == h + [e]
    ensures |h| >= cap ==> |r| == if |h| >= 1 then |h| - 1 else 0
    ensures |h| <= cap ==> |r| <= cap
    ensures |h| < cap || (2 <= cap && |h| == cap) ==> |r| > 0 && r[|r| - 1] == e
  {
    var pushed := h + [e];
    if |pushed| > cap then pushed[if |pushed| < 2 then |pushed| else 2..] else pushed
  }

  /** How many entries a transcript holds after `n` calls of `Push` on the
      empty transcript with cap `cap`: all of them up to the cap; after that
      the length alternates between `cap` and `cap - 1`, and stays 0 when
      `cap` is 0. */
  function RetainedCount(n: nat, cap: nat): (k: nat)
    ensures k <= n && k <= cap
    ensures n <= cap ==> k == n
    ensures n > cap && cap > 0 ==> k == cap || k == cap - 1
  {
    if n <= cap then n
    else if cap == 0 then 0
    else if (n - cap) % 2 == 0 then cap
    else cap - 1
  }

  /** The count after one more append: one more, unless that passes the cap,
      in which case two (or the single one) are dropped. */
  lemma RetainedCountStep(n: nat, cap: nat)
    ensures var k := RetainedCount(n, cap);
            RetainedCount(n + 1, cap) == if k + 1 > cap then k + 1 - (if k + 1 < 2 then k + 1 else 2) else k + 1
  {
  }

  /** One more append keeps the invariant "the transcript is the last
      `RetainedCount` entries of everything appended since the last clear". */
  lemma {:induction false} PushKeepsMostRecent(s: seq<Entry>, e: Entry, cap: nat)
    ensures Push(Last(s, RetainedCount(|s|, cap)), e, cap)
         == Last(s + [e], RetainedCount(|s| + 1, cap))
  {
    var k := RetainedCount(|s|, cap);
    RetainedCountStep(|s|, cap);
    AppendLast(s, e, k);
    if k + 1 > cap {
      DropLast(s + [e], k + 1, if k + 1 < 2 then k + 1 else 2);
    }
  }

  /** Appending to the last `k` elements gives the last `k + 1` of the
      longer sequence. */
  lemma AppendLast<T>(s: seq<T>, e: T, k: nat)
    requires k <= |s|
    ensures Last(s, k) + [e] == Last(s + [e], k + 1)
  {
  }

  /** Dropping `d` from the front of the last `m` leaves the last `m - d`. */
  lemma DropLast<T>(s: seq<T>, m: nat, d: nat)
    requires d <= m <= |s|
    ensures Last(s, m)[d..] == Last(s, m - d)
  {
  }

  /** A sequence of appends, one `Push` per entry of `es`, oldest first. */
  function PushAll(h: seq<Entry>, es: seq<Entry>, cap: nat): (r: seq<Entry>)
    decreases |es|
  {
    if es == [] then h else PushAll(Push(h, es[0], cap), es[1..], cap)
  }

  /** Whatever sequence of entries is appended to a fresh (or cleared)
      transcript, the transcript holds exactly the most recently appended
      `RetainedCount` of them, in their original order; so it never exceeds
      the cap. */
  lemma {:induction false} PushAllKeepsMostRecent(es: seq<Entry>, cap: nat)
    ensures PushAll([], es, cap) == Last(es, RetainedCount(|es|, cap))
    ensures |PushAll([], es, cap)| <= cap
  {
    var none: seq<Entry> := [];
    assert Last(none, RetainedCount(0, cap)) == none;
    PushAllFrom(none, es, cap);
    assert none + es == es;
  }

  /** The induction behind `PushAllKeepsMostRecent`, from any history `s`
      whose transcript already keeps its most recent entries. */
  lemma {:induction false} PushAllFrom(s: seq<Entry>, es: seq<Entry>, cap: nat)
    ensures PushAll(Last(s, RetainedCount(|s|, cap)), es, cap)
         == Last(s + es, RetainedCount(|s + es|, cap))
    decreases |es|
  {
    if es == [] {
      assert s + es == s;
    } else {
      var h := Last(s, RetainedCount(|s|, cap));
      var next := s + [es[0]];
      assert PushAll(h, es, cap) == PushAll(Push(h, es[0], cap), es[1..], cap);
      PushKeepsMostRecent(s, es[0], cap);
      PushAllFrom(next, es[1..], cap);
      MoveFirst(s, es);
    }
  }

  /** Moving the first element of `es` over to `s` keeps the concatenation. */
  lemma MoveFirst<T>(s: seq<T>, es: seq<T>)
    requires es != []
    ensures (s + [es[0]]) + es[1..] == s + es
  {
    assert es == [es[0]] + es[1..];
  }

  /** `n` user/assistant exchanges with the same texts. */
  function Exchanges(n: nat, question: string, answer: string): (es: seq<Entry>)
    ensures |es| == 2 * n
  {
    if n == 0 then [] else [Entry("user", question), Entry("assistant", answer)] + Exchanges(n - 1, question, answer)
  }

  /** Twenty-five exchanges under the default cap of 20 exchanges leave 40
      entries: the last 40 appended. */
  lemma TwentyFiveExchanges(question: string, answer: string)
    ensures var es := Exchanges(25, question, answer);
            PushAll([], es, 2 * DefaultMaxHistory) == es[10..]
  {
    var es := Exchanges(25, question, answer);
    PushAllKeepsMostRecent(es, 2 * DefaultMaxHistory);
    assert RetainedCount(50, 40) == 40;
  }

  /** The store. `chatHistory` and `userModels` are the two `Map`s of the
      source; `appendedCount` is a ghost record, per conversation, of how
      many entries were appended since it was created or last cleared. */
  class MemoryHandler {
    var chatHistory: map<string, seq<Entry>>
    var userModels: map<string, string>
    const maxHistory: nat
    ghost var appendedCount: map<string, nat>

    /** Every conversation holds exactly `RetainedCount` of the entries
        appended since the last clear, so at most `2 * maxHistory`. */
    ghost predicate Valid()
      reads this`chatHistory, this`appendedCount
    {
      forall k :: k in chatHistory ==>
        k in appendedCount && |chatHistory[k]| == RetainedCount(appendedCount[k], 2 * maxHistory)
    }

    /** How many entries were appended to conversation `k` since it was
        created or last cleared. */
    ghost function CountSinceClear(k: string): nat
      reads this`chatHistory, this`appendedCount
    {
      if k in chatHistory && k in appendedCount then appendedCount[k] else 0
    }

    constructor (maxHistory: nat := DefaultMaxHistory)
      ensures Valid()
      ensures this.maxHistory == maxHistory
      ensures chatHistory == map[] && userModels == map[] && appendedCount == map[]
    {
      this.chatHistory := map[];
      this.userModels := map[];
      this.maxHistory := maxHistory;
      this.appendedCount := map[];
    }

    /** Appends `{ role, content }` to conversation `userId`, creating it when
        missing and evicting the oldest two entries when the cap is passed.
        No other conversation and no preference changes. */
    method AddMessage(userId: string, role: string, content: string)
      requires Valid()
      modifies this
      ensures Valid()
      ensures chatHistory == old(chatHistory)[userId := Push(old(GetHistory(userId)), Entry(role, content), 2 * maxHistory)]
      ensures appendedCount == old(appendedCount)[userId := old(CountSinceClear(userId)) + 1]
      ensures userModels == old(userModels)
    {
      // A conversation seen for the first time starts empty.
      var userHistory := if userId in chatHistory then chatHistory[userId] else [];
      ghost var before := userHistory;
      ghost var count := CountSinceClear(userId);
      userHistory := userHistory + [Entry(role, content)];
      if |userHistory| > maxHistory * 2 {
        // splice(0, 2): the two oldest entries go, whatever their roles.
        userHistory := userHistory[if |userHistory| < 2 then |userHistory| else 2..];
      }
      assert userHistory == Push(before, Entry(role, content), 2 * maxHistory);
      RetainedCountStep(count, 2 * maxHistory);
      chatHistory := chatHistory[userId := userHistory];
      appendedCount := appendedCount[userId := count + 1];
    }

    /** The transcript of `userId`, empty when unknown; it holds
        `RetainedCount` of the entries appended since the last clear, so it
        is within the cap. */
    function GetHistory(userId: string): (h: seq<Entry>)
      reads this`chatHistory, this`appendedCount
      requires Valid()
      ensures userId !in chatHistory ==> h == []
      ensures userId in chatHistory ==> h == chatHistory[userId]
      ensures |h| <= 2 * maxHistory
      ensures |h| == RetainedCount(CountSinceClear(userId), 2 * maxHistory)
    {
      if userId in chatHistory then chatHistory[userId] else []
    }

    /** Empties conversation `userId` and answers `true`; nothing else changes. */
    method ClearHistory(userId: string) returns (ok: bool)
      requires Valid()
      modifies this
      ensures Valid() && ok
      ensures chatHistory == old(chatHistory)[userId := []]
      ensures appendedCount == old(appendedCount)[userId := 0]
      ensures userModels == old(userModels)
      ensures GetHistory(userId) == [] && CountSinceClear(userId) == 0
    {
      chatHistory := chatHistory[userId := []];
      appendedCount := appendedCount[userId := 0];
      ok := true;
    }

    /** Records `model` as the preference of `userId`, unvalidated, and
        answers it; afterwards `GetUserModel` gives it back (or the default
        when it is the empty string), and no other user's answer changes. */
    method SetUserModel(userId: string, model: string) returns (r: string)
      modifies this
      ensures r == model
      ensures userModels == old(userModels)[userId := model]
      ensures chatHistory == old(chatHistory) && appendedCount == old(appendedCount)
      ensures GetUserModel(userId) == if model == "" then DefaultUserModel else model
      ensures forall u :: u != userId ==> GetUserModel(u) == old(GetUserModel(u))
    {
      userModels := userModels[userId := model];
      r := model;
    }

    /** The stored preference of `userId`; the default when none is stored
        or the stored one is the (falsy) empty string. */
    function GetUserModel(userId: string): (m: string)
      reads this`userModels
      ensures m != ""
      ensures m == DefaultUserModel <==> userId !in userModels || userModels[userId] in {"", DefaultUserModel}
      ensures m != DefaultUserModel ==> userId in userModels && m == userModels[userId]
    {
      if userId in userModels && userModels[userId] != "" then userModels[userId] else DefaultUserModel
    }
  }

  /** Clearing twice leaves the store as clearing once. */
  method ClearTwice(store: MemoryHandler, userId: string)
    requires store.Valid()
    modifies store
    ensures store.Valid()
    ensures store.chatHistory == old(store.chatHistory)[userId := []]
    ensures store.userModels == old(store.userModels)
  {
    var first := store.ClearHistory(userId);
    ghost var once := store.chatHistory;
    var second := store.ClearHistory(userId);
    assert store.chatHistory == once[userId := []];
  }
}
