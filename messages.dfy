/** The conversation store: every chat turn is a `Message` document
    holding the user it belongs to, a role/content pair and the time it was
    first saved (backend/core/models/message.py, backend/core/models/base.py).
    The window that `get_messages_by_user` hands to the language model is
    the named selection `Window`. */
module Messages {
  import opened Wrappers
  import opened Decimal

  datatype Role = User | Assistant | System

  /** The `{"role": ..., "content": ...}` map of one turn. */
  datatype ChatMessage = ChatMessage(role: Role, content: string)

  /** A user, identified by the reference the store keeps to it. */
  type UserId = string

  /** One stored document; `createdAt` is a timestamp as a number of clock
      ticks. */
  datatype StoredMessage = StoredMessage(user: UserId, message: ChatMessage, createdAt: nat)

  /** The `limit(16)` of message.py:28. */
  const FETCH_LIMIT: nat := 16

  // ---------------------------------------------------------------------
  // Selecting the window
  // ---------------------------------------------------------------------

  /** The documents of `user`, in storage order: `objects(user=user)`. */
  function OfUser(ms: seq<StoredMessage>, user: UserId): (r: seq<StoredMessage>)
    ensures |r| <= |ms|
    ensures forall i :: 0 <= i < |r| ==> r[i].user == user
    ensures forall m {:trigger multiset(r)[m]} :: multiset(r)[m] == if m.user == user then multiset(ms)[m] else 0
    ensures forall m :: m in r <==> m in ms && m.user == user
  {
    if ms == [] then []
    else
      var last := ms[|ms| - 1];
      assert ms == ms[..|ms| - 1] + [last];
      OfUser(ms[..|ms| - 1], user) + (if last.user == user then [last] else [])
  }

  /** Selecting the user's documents commutes with concatenation, so the
      selection keeps the storage order. */
  lemma {:induction false} OfUserAppend(a: seq<StoredMessage>, b: seq<StoredMessage>, user: UserId)
    ensures OfUser(a + b, user) == OfUser(a, user) + OfUser(b, user)
    decreases |b|
  {
    if b == [] {
      assert a + b == a && OfUser(b, user) == [];
    } else {
      var init, last := b[..|b| - 1], b[|b| - 1];
      var tail := if last.user == user then [last] else [];
      assert (a + b)[..|a + b| - 1] == a + init && (a + b)[|a + b| - 1] == last;
      assert OfUser(a + b, user) == OfUser(a + init, user) + tail;
      assert OfUser(b, user) == OfUser(init, user) + tail;
      OfUserAppend(a, init, user);
      Associative(OfUser(a, user), OfUser(init, user), tail);
    }
  }

  lemma Associative(x: seq<StoredMessage>, y: seq<StoredMessage>, z: seq<StoredMessage>)
    ensures x + y + z == x + (y + z)
  {
  }

  predicate SortedByCreation(ms: seq<StoredMessage>) {
    forall i, j :: 0 <= i < j < |ms| ==> ms[i].createdAt <= ms[j].createdAt
  }

  /** `m` placed into the ordered `ms` after every element created no later
      than it, so that equal timestamps keep their storage order. */
  function Insert(m: StoredMessage, ms: seq<StoredMessage>): (r: seq<StoredMessage>)
    requires SortedByCreation(ms)
    ensures SortedByCreation(r)
    ensures multiset(r) == multiset(ms) + multiset{m}
    ensures |r| == |ms| + 1
    ensures r[|r| - 1] == m || (ms != [] && r[|r| - 1] == ms[|ms| - 1])
  {
    if ms == [] then [m]
    else if ms[|ms| - 1].createdAt <= m.createdAt then
      SortedAppend(ms, m);
      ms + [m]
    else
      var init, last := ms[..|ms| - 1], ms[|ms| - 1];
      assert ms == init + [last];
      var r := Insert(m, init);
      SortedAppend(r, last);
      r + [last]
  }

  /** An element no older than the last of an ordered sequence extends it
      in order. */
  lemma SortedAppend(ms: seq<StoredMessage>, m: StoredMessage)
    requires SortedByCreation(ms)
    requires ms != [] ==> ms[|ms| - 1].createdAt <= m.createdAt
    ensures SortedByCreation(ms + [m])
  {
    var r := ms + [m];
    forall i, j | 0 <= i < j < |r| ensures r[i].createdAt <= r[j].createdAt {
      if j == |ms| && i < |ms| - 1 {
        assert r[i] == ms[i] && ms[|ms| - 1] == r[|ms| - 1];
      }
    }
  }

  /** The documents in ascending `created_at` order. `Insert` places an
      element after the equal ones already placed, so ties are meant to
      keep storage order; that stability is not among the proved facts. */
  function SortByCreation(ms: seq<StoredMessage>): (r: seq<StoredMessage>)
    ensures SortedByCreation(r)
    ensures multiset(r) == multiset(ms)
  {
    if ms == [] then []
    else
      assert ms == ms[..|ms| - 1] + [ms[|ms| - 1]];
      Insert(ms[|ms| - 1], SortByCreation(ms[..|ms| - 1]))
  }

  function Take(ms: seq<StoredMessage>, n: nat): seq<StoredMessage> {
    if |ms| <= n then ms else ms[..n]
  }

  /** The query of message.py:28-29 as it is written: `order_by` on line 29
      replaces the descending order of line 28 instead of re-sorting its
      result, and MongoDB applies the sort before the limit, so the window
      is the `limit` OLDEST documents of the user, oldest first. */
  function Window(ms: seq<StoredMessage>, user: UserId, limit: nat): seq<StoredMessage> {
    Take(SortByCreation(OfUser(ms, user)), limit)
  }

  /** The window holds `limit` documents, or all of the user's documents
      when there are fewer. */
  lemma WindowLength(ms: seq<StoredMessage>, user: UserId, limit: nat)
    ensures |Window(ms, user, limit)| == if |OfUser(ms, user)| <= limit then |OfUser(ms, user)| else limit
  {
    var sorted := SortByCreation(OfUser(ms, user));
    assert |sorted| == |multiset(sorted)| == |OfUser(ms, user)|;
  }

  /** `Take` keeps a prefix of its input. */
  lemma TakePrefix(s: seq<StoredMessage>, n: nat)
    ensures var t := Take(s, n); |t| <= |s| && t == s[..|t|] && multiset(t) <= multiset(s)
  {
    var t := Take(s, n);
    assert s == t + s[|t|..];
  }

  /** The window holds only documents of the user, taken from the store
      (as often as the store holds them, at most), oldest first. */
  lemma WindowContents(ms: seq<StoredMessage>, user: UserId, limit: nat)
    ensures var w := Window(ms, user, limit);
      && SortedByCreation(w)
      && multiset(w) <= multiset(OfUser(ms, user))
      && forall i :: 0 <= i < |w| ==> w[i].user == user && w[i] in ms
  {
    var mine := OfUser(ms, user);
    var sorted := SortByCreation(mine);
    var w := Take(sorted, limit);
    TakePrefix(sorted, limit);
    forall i | 0 <= i < |w| ensures w[i].user == user && w[i] in ms {
      assert w[i] in multiset(sorted);
      assert w[i] in mine;
    }
    forall i, j | 0 <= i < j < |w| ensures w[i].createdAt <= w[j].createdAt {
      assert w[i] == sorted[i] && w[j] == sorted[j];
    }
  }

  /** In an ordered sequence nothing after position `k` is older than
      anything before it. */
  lemma PrefixNoLaterThanSuffix(sorted: seq<StoredMessage>, k: nat)
    requires SortedByCreation(sorted) && k <= |sorted|
    ensures forall x, y :: x in multiset(sorted[..k]) && y in multiset(sorted[k..]) ==> x.createdAt <= y.createdAt
  {
    forall x, y | x in multiset(sorted[..k]) && y in multiset(sorted[k..]) ensures x.createdAt <= y.createdAt {
      var i :| 0 <= i < k && sorted[..k][i] == x;
      var j :| 0 <= j < |sorted| - k && sorted[k..][j] == y;
      assert sorted[i] == x && sorted[k + j] == y;
    }
  }

  /** No document of the user that was left out of the window is older
      than one that was taken. */
  lemma WindowIsOldest(ms: seq<StoredMessage>, user: UserId, limit: nat)
    ensures var w := Window(ms, user, limit);
      forall x, y :: x in multiset(w) && y in multiset(OfUser(ms, user)) - multiset(w)
        ==> x.createdAt <= y.createdAt
  {
    var sorted := SortByCreation(OfUser(ms, user));
    var w := Window(ms, user, limit);
    var k := |w|;
    assert w == sorted[..k];
    assert sorted == sorted[..k] + sorted[k..];
    assert multiset(OfUser(ms, user)) - multiset(w) == multiset(sorted[k..]);
    PrefixNoLaterThanSuffix(sorted, k);
  }

  /** Taking fewer than all of a collection, from the oldest up, cannot
      take its unique newest element. */
  lemma NewestNotAmongOldest(all: multiset<StoredMessage>, taken: multiset<StoredMessage>, newest: StoredMessage)
    requires taken <= all && |taken| < |all|
    requires all[newest] == 1
    requires forall m :: m in all && m != newest ==> m.createdAt < newest.createdAt
    requires forall x, y :: x in taken && y in all - taken ==> x.createdAt <= y.createdAt
    ensures newest !in taken
  {
    assert all == taken + (all - taken);
    var y :| y in all - taken;
    if y == newest {
      assert taken[newest] == 0;
    } else {
      assert y.createdAt < newest.createdAt;
    }
  }

  /** The consequence of selecting the oldest documents: once the user has
      more documents than the limit, the single newest one is not in the
      window, so the turn the user sent last is not shown to the model. */
  lemma NewestLeftOutWhenFull(ms: seq<StoredMessage>, user: UserId, limit: nat, newest: StoredMessage)
    requires |OfUser(ms, user)| > limit
    requires multiset(OfUser(ms, user))[newest] == 1
    requires forall m :: m in OfUser(ms, user) && m != newest ==> m.createdAt < newest.createdAt
    ensures newest !in Window(ms, user, limit)
  {
    var w := Window(ms, user, limit);
    WindowLength(ms, user, limit);
    WindowContents(ms, user, limit);
    WindowIsOldest(ms, user, limit);
    NewestNotAmongOldest(multiset(OfUser(ms, user)), multiset(w), newest);
  }

  // ---------------------------------------------------------------------
  // Annotating the window
  // ---------------------------------------------------------------------

  /** message.py:33-35: the role/content map of the document, with the
      creation time appended to the content; the user reference is not part
      of the result. */
  function Annotate(m: StoredMessage): (r: ChatMessage)
    ensures r.role == m.message.role
    ensures |m.message.content| < |r.content|
    ensures r.content[..|m.message.content|] == m.message.content
    ensures r.content[|m.message.content|..] == " timestamp: " + NatToString(m.createdAt)
  {
    ChatMessage(m.message.role, m.message.content + " timestamp: " + NatToString(m.createdAt))
  }

  function AnnotateAll(ms: seq<StoredMessage>): (r: seq<ChatMessage>)
    ensures |r| == |ms|
    ensures forall i :: 0 <= i < |ms| ==> r[i] == Annotate(ms[i])
  {
    if ms == [] then [] else AnnotateAll(ms[..|ms| - 1]) + [Annotate(ms[|ms| - 1])]
  }

  /** The annotation keeps the original content and the timestamp apart:
      from an annotated turn and the length of the original content both
      can be read back. */
  lemma AnnotateInjective(m1: StoredMessage, m2: StoredMessage)
    requires |m1.message.content| == |m2.message.content|
    requires Annotate(m1) == Annotate(m2)
    ensures m1.message == m2.message && m1.createdAt == m2.createdAt
  {
    var n := |m1.message.content|;
    assert m1.message.content == Annotate(m1).content[..n];
    assert NatToString(m1.createdAt) == Annotate(m1).content[n..][12..];
    NatToStringInjective(m1.createdAt, m2.createdAt);
  }

  // ---------------------------------------------------------------------
  // The store
  // ---------------------------------------------------------------------

  /** The `Message` collection, in insertion order. */
  class MessageStore {
    var messages: seq<StoredMessage>

    constructor()
      ensures messages == []
    {
      messages := [];
    }

    /** Saving a new document (base.py:18-22): `created_at` is set to the
        current time only when the document does not carry one yet. */
    method Save(user: UserId, message: ChatMessage, createdAt: Option<nat>, now: nat)
      modifies this
      ensures messages == old(messages) + [StoredMessage(user, message, createdAt.GetOr(now))]
      ensures createdAt.Some? ==> messages[|messages| - 1].createdAt == createdAt.value
    {
      messages := messages + [StoredMessage(user, message, createdAt.GetOr(now))];
    }

    /** `get_messages_by_user`: the window of the user, each entry
        annotated with its timestamp, oldest first. */
    method GetMessagesByUser(user: UserId) returns (result: seq<ChatMessage>)
      ensures result == AnnotateAll(Window(messages, user, FETCH_LIMIT))
      ensures |result| <= FETCH_LIMIT
    {
      var window := Window(messages, user, FETCH_LIMIT);
      WindowLength(messages, user, FETCH_LIMIT);
      result := AnnotateEach(window);
    }
  }

  /** The loop of message.py:31-37: one annotated entry per document, in
      the order of the window. */
  method AnnotateEach(window: seq<StoredMessage>) returns (result: seq<ChatMessage>)
    ensures result == AnnotateAll(window)
  {
    result := [];
    for i := 0 to |window|
      invariant result == AnnotateAll(window[..i])
    {
      assert window[..i + 1][..i] == window[..i];
      result := result + [Annotate(window[i])];
    }
    assert window[..|window|] == window;
  }

  /** Saving a document adds it to its owner's documents and to no one
      else's. */
  lemma SaveAddsToOwner(ms: seq<StoredMessage>, m: StoredMessage, user: UserId)
    ensures OfUser(ms + [m], user) == OfUser(ms, user) + (if m.user == user then [m] else [])
  {
    assert (ms + [m])[..|ms + [m]| - 1] == ms;
  }

  /** Hence saving a document of one user leaves every other user's window
      as it was. */
  lemma SaveKeepsOtherWindows(ms: seq<StoredMessage>, m: StoredMessage, user: UserId, limit: nat)
    requires m.user != user
    ensures Window(ms + [m], user, limit) == Window(ms, user, limit)
  {
    SaveAddsToOwner(ms, m, user);
    assert OfUser(ms + [m], user) == OfUser(ms, user);
  }
}
