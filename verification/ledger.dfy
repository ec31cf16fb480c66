/**
 * The memory manager: a session key/value cache and the `creations` table,
 * held here as a sequence of rows in insertion order plus the table's
 * AUTOINCREMENT counter. Timestamps are clock values; the clock never runs
 * backwards, so ISO-8601 text order and clock order agree.
 */
module Ledger {
  import opened Common
  import opened Text

  /** One row of the `creations` table, with every column. */
  datatype CreationRecord = CreationRecord(
    id: int,
    creationDate: nat,
    prompt: string,
    enhancedPrompt: string,
    imagePath: Option<string>,
    modelPath: Option<string>,
    videoPath: Option<string>,
    tags: string,
    userId: string)

  /** Ids strictly increase and dates never decrease along the table. */
  predicate OldestFirst(rows: seq<CreationRecord>)
  {
    forall i, j :: 0 <= i < j < |rows| ==> rows[i].id < rows[j].id && rows[i].creationDate <= rows[j].creationDate
  }

  predicate NewestFirst(rs: seq<CreationRecord>)
  {
    forall i, j :: 0 <= i < j < |rs| ==> rs[i].creationDate >= rs[j].creationDate
  }

  /** What the table and its counter keep true between calls. */
  predicate TableInvariant(rows: seq<CreationRecord>, nextId: int, clock: nat)
  {
    && nextId >= 1
    && OldestFirst(rows)
    && (forall r :: r in rows ==> 1 <= r.id < nextId && r.creationDate <= clock && r.videoPath == None)
  }

  /** The `tags` column: the tags joined by commas, empty for None or no tags. */
  function TagsColumn(tags: Option<seq<string>>): (s: string)
    ensures tags == None || tags == Some([]) ==> s == ""
  {
    if tags.Some? && tags.value != [] then Join(tags.value, ',') else ""
  }

  /** Comma-free tags can be read back from the column. */
  lemma TagsColumnRoundTrip(tags: seq<string>)
    requires tags != [] && forall t :: t in tags ==> ',' !in t
    ensures SplitOn(TagsColumn(Some(tags)), ',') == tags
  {
    SplitJoin(tags, ',');
  }

  // ---------------------------------------------------------------------
  // SQLite LIKE (no ESCAPE clause): `%` matches any run, `_` any one
  // character, other characters match up to ASCII case.

  function Like(pattern: string, s: string): bool
    decreases |pattern| + |s|
  {
    if pattern == [] then s == []
    else if pattern[0] == '%' then Like(pattern[1..], s) || (s != [] && Like(pattern, s[1..]))
    else s != [] && (pattern[0] == '_' || LowerChar(pattern[0]) == LowerChar(s[0])) && Like(pattern[1..], s[1..])
  }

  predicate NoWildcards(t: string)
  {
    '%' !in t && '_' !in t
  }

  /** The bound pattern `f"%{search_term}%"`. */
  function ContainsPattern(term: string): string
  {
    "%" + term + "%"
  }

  lemma {:induction false} LikeAnything(s: string)
    ensures Like("%", s)
    decreases |s|
  {
    if s != [] {
      LikeAnything(s[1..]);
    }
  }

  lemma {:induction false} LikePrefix(t: string, s: string)
    requires NoWildcards(t)
    ensures Like(t + "%", s) <==> IsPrefix(Lower(t), Lower(s))
    decreases |t|
  {
    if t == [] {
      assert t + "%" == "%";
      LikeAnything(s);
    } else {
      assert (t + "%")[1..] == t[1..] + "%";
      assert (t + "%")[0] == t[0];
      assert NoWildcards(t[1..]) by { assert forall c :: c in t[1..] ==> c in t; }
      if s != [] {
        LikePrefix(t[1..], s[1..]);
        assert Lower(t)[1..] == Lower(t[1..]);
        assert Lower(s)[1..] == Lower(s[1..]);
        if IsPrefix(Lower(t), Lower(s)) {
          assert Lower(t)[0] == Lower(s)[0];
          assert Lower(s[1..])[..|t| - 1] == Lower(s)[..|t|][1..];
        }
        if IsPrefix(Lower(t[1..]), Lower(s[1..])) && LowerChar(t[0]) == LowerChar(s[0]) {
          assert Lower(s)[..|t|] == [Lower(s)[0]] + Lower(s[1..])[..|t| - 1];
          assert Lower(t) == [Lower(t)[0]] + Lower(t[1..]);
        }
      }
    }
  }

  /** With no wildcard in the term, `LIKE '%term%'` is a case-insensitive substring test. */
  lemma {:induction false} LikeIsSubstring(term: string, s: string)
    requires NoWildcards(term)
    ensures Like(ContainsPattern(term), s) <==> Contains(Lower(s), Lower(term))
    decreases |s|
  {
    var p := ContainsPattern(term);
    assert p[0] == '%';
    assert p[1..] == term + "%";
    LikePrefix(term, s);
    if s != [] {
      LikeIsSubstring(term, s[1..]);
      assert Lower(s)[1..] == Lower(s[1..]);
    }
  }

  /** `if user_id:` — the user filter applies only to a non-empty id. */
  predicate UserMatch(r: CreationRecord, userId: Option<string>)
  {
    Truthy(userId) ==> r.userId == userId.value
  }

  /** The WHERE clause of the search query. */
  predicate SearchMatch(r: CreationRecord, term: string, userId: Option<string>)
  {
    var p := ContainsPattern(term);
    (Like(p, r.prompt) || Like(p, r.enhancedPrompt) || Like(p, r.tags)) && UserMatch(r, userId)
  }

  /** The rows the search query returns, in table order. */
  function Matching(rows: seq<CreationRecord>, term: string, userId: Option<string>): seq<CreationRecord>
  {
    if rows == [] then []
    else
      var last := rows[|rows| - 1];
      Matching(rows[..|rows| - 1], term, userId) + (if SearchMatch(last, term, userId) then [last] else [])
  }

  /** The search returns exactly the matching rows. */
  lemma {:induction false} MatchingExact(rows: seq<CreationRecord>, term: string, userId: Option<string>)
    ensures forall r :: r in Matching(rows, term, userId) <==> r in rows && SearchMatch(r, term, userId)
    decreases |rows|
  {
    if rows != [] {
      var init := rows[..|rows| - 1];
      MatchingExact(init, term, userId);
      assert rows == init + [rows[|rows| - 1]];
    }
  }

  /** The rows of one user (all rows when no user is given), in table order. */
  function ByUser(rows: seq<CreationRecord>, userId: Option<string>): (rs: seq<CreationRecord>)
    ensures forall r :: r in rs ==> r in rows && UserMatch(r, userId)
    ensures |rs| <= |rows|
  {
    if rows == [] then []
    else
      var last := rows[|rows| - 1];
      ByUser(rows[..|rows| - 1], userId) + (if UserMatch(last, userId) then [last] else [])
  }

  /** One more row joins the user's rows exactly when it is the user's. */
  lemma ByUserSnoc(s: seq<CreationRecord>, x: CreationRecord, userId: Option<string>)
    ensures ByUser(s + [x], userId) == ByUser(s, userId) + (if UserMatch(x, userId) then [x] else [])
  {
    assert (s + [x])[..|s|] == s;
  }

  lemma {:induction false} ByUserAppend(a: seq<CreationRecord>, b: seq<CreationRecord>, userId: Option<string>)
    ensures ByUser(a + b, userId) == ByUser(a, userId) + ByUser(b, userId)
    decreases |b|
  {
    if b != [] {
      var init, last := b[..|b| - 1], b[|b| - 1];
      assert a + b == (a + init) + [last];
      assert b == init + [last];
      ByUserSnoc(a + init, last, userId);
      ByUserSnoc(init, last, userId);
      ByUserAppend(a, init, userId);
    } else {
      assert a + b == a;
    }
  }

  lemma {:induction false} ByUserKeepsOrder(rows: seq<CreationRecord>, userId: Option<string>)
    requires OldestFirst(rows)
    ensures OldestFirst(ByUser(rows, userId))
    decreases |rows|
  {
    if rows != [] {
      var n := |rows| - 1;
      var init, last := rows[..n], rows[n];
      OldestFirstPrefix(rows, n);
      ByUserKeepsOrder(init, userId);
      if UserMatch(last, userId) {
        ByUserBefore(rows, n, userId);
        OldestFirstSnoc(ByUser(init, userId), last);
      }
    }
  }

  /** The user's rows before position `n` are all older than the row at `n`. */
  lemma ByUserBefore(rows: seq<CreationRecord>, n: nat, userId: Option<string>)
    requires OldestFirst(rows) && n < |rows|
    ensures forall r :: r in ByUser(rows[..n], userId) ==> r.id < rows[n].id && r.creationDate <= rows[n].creationDate
  {
    forall r | r in ByUser(rows[..n], userId) ensures r.id < rows[n].id && r.creationDate <= rows[n].creationDate {
      var k :| 0 <= k < n && rows[..n][k] == r;
      assert rows[k] == r;
    }
  }

  lemma OldestFirstPrefix(rows: seq<CreationRecord>, n: nat)
    requires OldestFirst(rows) && n <= |rows|
    ensures OldestFirst(rows[..n])
  {
    var init := rows[..n];
    forall i, j | 0 <= i < j < |init|
      ensures init[i].id < init[j].id && init[i].creationDate <= init[j].creationDate
    {
      assert init[i] == rows[i] && init[j] == rows[j];
    }
  }

  lemma OldestFirstSnoc(f: seq<CreationRecord>, x: CreationRecord)
    requires OldestFirst(f)
    requires forall r :: r in f ==> r.id < x.id && r.creationDate <= x.creationDate
    ensures OldestFirst(f + [x])
  {
    var g := f + [x];
    forall i, j | 0 <= i < j < |g| ensures g[i].id < g[j].id && g[i].creationDate <= g[j].creationDate {
      assert g[i] == f[i];
      if j < |f| {
        assert g[j] == f[j];
      } else {
        assert f[i] in f;
      }
    }
  }

  function Reverse(s: seq<CreationRecord>): (r: seq<CreationRecord>)
    ensures |r| == |s|
  {
    seq(|s|, i requires 0 <= i < |s| => s[|s| - 1 - i])
  }

  /** `ORDER BY creation_date DESC LIMIT ?` over one user's rows; a negative limit means no limit. */
  function Recent(rows: seq<CreationRecord>, limit: int, userId: Option<string>): seq<CreationRecord>
  {
    var all := Reverse(ByUser(rows, userId));
    if limit < 0 || limit >= |all| then all else all[..limit]
  }

  /** At most `limit` rows, each of the requested user and taken from the table. */
  lemma RecentBounded(rows: seq<CreationRecord>, limit: int, userId: Option<string>)
    ensures limit >= 0 ==> |Recent(rows, limit, userId)| <= limit
    ensures |Recent(rows, limit, userId)|
         == if limit < 0 || limit >= |ByUser(rows, userId)| then |ByUser(rows, userId)| else limit
    ensures forall r :: r in Recent(rows, limit, userId) ==> r in rows && UserMatch(r, userId)
  {
    var f := ByUser(rows, userId);
    var all := Reverse(f);
    var recent := Recent(rows, limit, userId);
    InReverse(f);
    forall r | r in recent ensures r in all {
      var k :| 0 <= k < |recent| && recent[k] == r;
      assert all[k] == r;
    }
  }

  lemma ReverseNewestFirst(f: seq<CreationRecord>)
    requires OldestFirst(f)
    ensures NewestFirst(Reverse(f))
  {
    var all := Reverse(f);
    forall i, j | 0 <= i < j < |all| ensures all[i].creationDate >= all[j].creationDate {
      assert all[i] == f[|f| - 1 - i] && all[j] == f[|f| - 1 - j];
    }
  }

  lemma PrefixOfNewestFirst(all: seq<CreationRecord>, n: nat)
    requires NewestFirst(all) && n <= |all|
    ensures NewestFirst(all[..n])
    ensures forall q, r :: q in all && q !in all[..n] && r in all[..n] ==> q.creationDate <= r.creationDate
  {
    forall q, r | q in all && q !in all[..n] && r in all[..n] ensures q.creationDate <= r.creationDate {
      assert all == all[..n] + all[n..];
      var b :| 0 <= b < |all| - n && all[n..][b] == q;
      assert all[n + b] == q;
      var k :| 0 <= k < n && all[..n][k] == r;
    }
  }

  lemma InReverse(f: seq<CreationRecord>)
    ensures forall q :: q in f <==> q in Reverse(f)
  {
    forall q | q in f ensures q in Reverse(f) {
      var a :| 0 <= a < |f| && f[a] == q;
      assert Reverse(f)[|f| - 1 - a] == q;
    }
  }

  /** The result is newest first, and every row left out is no newer than every row returned. */
  lemma {:induction false} RecentNewestFirst(rows: seq<CreationRecord>, limit: int, userId: Option<string>)
    requires OldestFirst(rows)
    ensures NewestFirst(Recent(rows, limit, userId))
    ensures forall q, r :: q in ByUser(rows, userId) && q !in Recent(rows, limit, userId) && r in Recent(rows, limit, userId)
              ==> q.creationDate <= r.creationDate
  {
    var f := ByUser(rows, userId);
    ByUserKeepsOrder(rows, userId);
    ReverseNewestFirst(f);
    InReverse(f);
    var all := Reverse(f);
    var n := if limit < 0 || limit >= |all| then |all| else limit;
    assert all[..n] == Recent(rows, limit, userId);
    PrefixOfNewestFirst(all, n);
  }

  /** Everything a memory manager holds, as a value. */
  datatype Snapshot = Snapshot(shortTerm: map<string, Option<string>>, rows: seq<CreationRecord>, nextId: int, clock: nat)

  class MemoryManager {
    /** `short_term_memory`: values are strings or Python None. */
    var shortTerm: map<string, Option<string>>
    /** The `creations` table, oldest row first. */
    var rows: seq<CreationRecord>
    /** The AUTOINCREMENT counter: the id the next insert receives. */
    var nextId: int
    /** The latest timestamp written. */
    var clock: nat

    ghost predicate Valid()
      reads this
    {
      TableInvariant(rows, nextId, clock)
    }

    function State(): Snapshot
      reads this
    {
      Snapshot(shortTerm, rows, nextId, clock)
    }

    /** Opens the store over what an earlier session left in the table; the session cache starts empty. */
    constructor (stored: seq<CreationRecord>, storedNextId: int, storedClock: nat)
      requires TableInvariant(stored, storedNextId, storedClock)
      ensures Valid()
      ensures shortTerm == map[] && rows == stored && nextId == storedNextId && clock == storedClock
    {
      shortTerm := map[];
      rows := stored;
      nextId := storedNextId;
      clock := storedClock;
    }

    method SaveToShortTerm(key: string, value: Option<string>)
      modifies this`shortTerm
      ensures shortTerm == old(shortTerm)[key := value]
      ensures GetFromShortTerm(key) == value
      ensures forall k :: k != key ==> GetFromShortTerm(k) == old(GetFromShortTerm(k))
    {
      shortTerm := shortTerm[key := value];
    }

    /** `dict.get`: None both for a missing key and for a stored None. */
    function GetFromShortTerm(key: string): (v: Option<string>)
      reads this
      ensures key !in shortTerm ==> v == None
      ensures key in shortTerm ==> v == shortTerm[key]
    {
      if key in shortTerm then shortTerm[key] else None
    }

    /**
     * Inserts one row stamped `now` (the `video_path` column is never written)
     * and returns its id; when the store fails (`storeUp` false) nothing is
     * added and -1 comes back.
     */
    method SaveCreation(now: nat, storeUp: bool,
                        prompt: string, enhancedPrompt: string, imagePath: Option<string>,
                        modelPath: Option<string>, tags: Option<seq<string>> := None,
                        userId: string := "default_user")
      returns (id: int)
      requires Valid() && now >= clock
      modifies this`rows, this`nextId, this`clock
      ensures Valid()
      ensures storeUp ==> id == old(nextId)
      ensures storeUp ==> forall r :: r in old(rows) ==> r.id < id
      ensures storeUp ==> rows == old(rows) + [CreationRecord(id, now, prompt, enhancedPrompt, imagePath, modelPath,
                                                              None, TagsColumn(tags), userId)]
      ensures storeUp ==> nextId == old(nextId) + 1 && clock == now
      ensures !storeUp ==> id == -1 && rows == old(rows) && nextId == old(nextId) && clock == old(clock)
    {
      if !storeUp {
        return -1;
      }
      id := nextId;
      rows := rows + [CreationRecord(id, now, prompt, enhancedPrompt, imagePath, modelPath, None, TagsColumn(tags), userId)];
      nextId := nextId + 1;
      clock := now;
    }

    /** Rows whose prompt, enhanced prompt or tags match `%term%`, for one user when `userId` is truthy; [] when the store fails. */
    method SearchCreations(storeUp: bool, term: string, userId: Option<string> := None)
      returns (found: seq<CreationRecord>)
      ensures storeUp ==> found == Matching(rows, term, userId)
      ensures storeUp ==> forall r :: r in found <==> r in rows && SearchMatch(r, term, userId)
      ensures !storeUp ==> found == []
    {
      if !storeUp {
        return [];
      }
      found := [];
      var i := 0;
      while i < |rows|
        invariant 0 <= i <= |rows|
        invariant found == Matching(rows[..i], term, userId)
      {
        assert rows[..i + 1][..i] == rows[..i];
        if SearchMatch(rows[i], term, userId) {
          found := found + [rows[i]];
        }
        i := i + 1;
      }
      assert rows[..i] == rows;
      MatchingExact(rows, term, userId);
    }

    /** The `limit` newest rows of one user (all users when `userId` is not truthy); [] when the store fails. */
    method GetRecentCreations(storeUp: bool, limit: int := 5, userId: Option<string> := None)
      returns (recent: seq<CreationRecord>)
      requires Valid()
      ensures storeUp ==> recent == Recent(rows, limit, userId)
      ensures !storeUp ==> recent == []
    {
      if !storeUp {
        return [];
      }
      recent := NewestRows(limit, userId);
    }

    /** The same query as GetRecentCreations; only the default limit differs. */
    method GetAllCreations(storeUp: bool, limit: int := 20, userId: Option<string> := None)
      returns (all: seq<CreationRecord>)
      requires Valid()
      ensures storeUp ==> all == Recent(rows, limit, userId)
      ensures !storeUp ==> all == []
    {
      if !storeUp {
        return [];
      }
      all := NewestRows(limit, userId);
    }

    /** Walks the table from its newest row, keeping the user's rows until `limit` are kept. */
    method NewestRows(limit: int, userId: Option<string>) returns (recent: seq<CreationRecord>)
      ensures recent == Recent(rows, limit, userId)
    {
      var table := rows;
      recent := [];
      var i := |table|;
      while i > 0 && (limit < 0 || |recent| < limit)
        invariant 0 <= i <= |table|
        invariant recent == Reverse(ByUser(table[i..], userId))
        invariant limit >= 0 ==> |recent| <= limit
      {
        i := i - 1;
        ReverseByUserStep(table, i, userId);
        if UserMatch(table[i], userId) {
          recent := recent + [table[i]];
        }
      }
      RecentFromSuffix(table, i, limit, userId);
    }
  }

  lemma ReverseAppend(a: seq<CreationRecord>, b: seq<CreationRecord>)
    ensures Reverse(a + b) == Reverse(b) + Reverse(a)
  {
    var l, r := Reverse(a + b), Reverse(b) + Reverse(a);
    forall k | 0 <= k < |l| ensures l[k] == r[k] {
      if k < |b| {
        assert r[k] == Reverse(b)[k];
      } else {
        assert r[k] == Reverse(a)[k - |b|];
      }
    }
  }

  lemma ReverseByUserStep(rows: seq<CreationRecord>, i: nat, userId: Option<string>)
    requires i < |rows|
    ensures Reverse(ByUser(rows[i..], userId))
         == Reverse(ByUser(rows[i + 1..], userId)) + (if UserMatch(rows[i], userId) then [rows[i]] else [])
  {
    var x, t := rows[i], rows[i + 1..];
    assert rows[i..] == [x] + t;
    ByUserAppend([x], t, userId);
    var one := if UserMatch(x, userId) then [x] else [];
    assert ByUser([x], userId) == one by {
      assert [x][..0] == [];
    }
    ReverseAppend(one, ByUser(t, userId));
    assert Reverse(one) == one;
  }

  /** When the walk stops, what it kept is the answer of the query. */
  lemma RecentFromSuffix(rows: seq<CreationRecord>, i: nat, limit: int, userId: Option<string>)
    requires i <= |rows|
    requires limit >= 0 ==> |Reverse(ByUser(rows[i..], userId))| <= limit
    requires i == 0 || (limit >= 0 && |Reverse(ByUser(rows[i..], userId))| == limit)
    ensures Reverse(ByUser(rows[i..], userId)) == Recent(rows, limit, userId)
  {
    if i == 0 {
      assert rows[i..] == rows;
    } else {
      var tail := ByUser(rows[i..], userId);
      var head := ByUser(rows[..i], userId);
      assert rows[..i] + rows[i..] == rows;
      ByUserAppend(rows[..i], rows[i..], userId);
      ReverseAppend(head, tail);
      var all := Reverse(ByUser(rows, userId));
      assert all == Reverse(tail) + Reverse(head);
      assert Reverse(tail) == all[..limit];
    }
  }
}
