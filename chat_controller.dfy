/**
  The REST history and user-list endpoints. The Message and User collections are sequences in store
  order; a query that fails (the database, or a skip the driver refuses) becomes `ServerError`.
*/
module ChatController {
  import opened Common
  import opened JsString
  import opened Protocol
  import opened UserModel
  import opened MessageModel

  const DefaultPage := 1
  const DefaultLimit := 50

  // ---------------------------------------------------------------------------
  // parseInt(s, 10)
  // ---------------------------------------------------------------------------

  function DigitValue(c: char): nat
    requires IsAsciiDigit(c)
  {
    c as int - '0' as int
  }

  /** The longest prefix of `s` made of ASCII digits. */
  function DigitPrefix(s: string): (r: string)
    ensures |r| <= |s| && r == s[..|r|]
    ensures forall i :: 0 <= i < |r| ==> IsAsciiDigit(r[i])
    ensures |r| < |s| ==> !IsAsciiDigit(s[|r|])
  {
    if s != [] && IsAsciiDigit(s[0]) then [s[0]] + DigitPrefix(s[1..]) else []
  }

  /** The number a string of decimal digits denotes, most significant digit first. */
  function DigitsValue(ds: string): nat
    requires forall i :: 0 <= i < |ds| ==> IsAsciiDigit(ds[i])
  {
    if ds == [] then 0 else 10 * DigitsValue(ds[..|ds| - 1]) + DigitValue(ds[|ds| - 1])
  }

  /**
    `parseInt(s, 10)`: skip leading whitespace, read an optional sign and the longest run of decimal
    digits after it. No digit at all is NaN, here `None`.
  */
  function ParseInt(s: string): (r: Option<int>)
    ensures s != [] && IsAsciiDigit(s[0]) ==> r.Some? && r.value >= 0
    ensures r.Some? && r.value < 0 ==> TrimStart(s) != [] && TrimStart(s)[0] == '-'
    ensures TrimStart(s) == [] ==> r.None?
  {
    var t := TrimStart(s);
    var negative := t != [] && t[0] == '-';
    var unsigned := if t != [] && (t[0] == '-' || t[0] == '+') then t[1..] else t;
    var digits := DigitPrefix(unsigned);
    if digits == [] then None
    else
      var v: int := DigitsValue(digits);
      Some(if negative then -v else v)
  }

  /** The decimal digits of `n`, without leading zeros: JavaScript's `String(n)` for a natural number. */
  function Decimal(n: nat): (r: string)
    ensures r != [] && forall i :: 0 <= i < |r| ==> IsAsciiDigit(r[i])
  {
    var d := ['0' + (n % 10) as char];
    if n < 10 then d else Decimal(n / 10) + d
  }

  /** `String(n)` for any integer. */
  function IntToString(n: int): string
  {
    if n < 0 then "-" + Decimal(-n) else Decimal(n)
  }

  lemma {:induction false} DigitsValueOfDecimal(n: nat)
    ensures DigitsValue(Decimal(n)) == n
  {
    var r := Decimal(n);
    if n >= 10 {
      DigitsValueOfDecimal(n / 10);
      assert r[..|r| - 1] == Decimal(n / 10);
    }
  }

  lemma {:induction false} DigitPrefixOfDigits(ds: string)
    requires forall i :: 0 <= i < |ds| ==> IsAsciiDigit(ds[i])
    ensures DigitPrefix(ds) == ds
  {
    if ds != [] {
      DigitPrefixOfDigits(ds[1..]);
    }
  }

  /** `parseInt` of a digit string is the number the digits denote. */
  lemma {:induction false} ParseIntOfDigits(d: string)
    requires d != [] && forall i :: 0 <= i < |d| ==> IsAsciiDigit(d[i])
    ensures ParseInt(d) == Some(DigitsValue(d) as int)
  {
    assert !IsJsWhitespace(d[0]);
    TrimStartOfUnpadded(d);
    assert d[0] != '-' && d[0] != '+';
    DigitPrefixOfDigits(d);
  }

  /** `parseInt` of a minus sign followed by a digit string is the negated number the digits denote. */
  lemma {:induction false} ParseIntOfNegativeDigits(d: string)
    requires d != [] && forall i :: 0 <= i < |d| ==> IsAsciiDigit(d[i])
    ensures ParseInt("-" + d) == Some(-(DigitsValue(d) as int))
  {
    DigitPrefixOfDigits(d);
    var s := "-" + d;
    assert s[0] == '-' && s[1..] == d;
    TrimStartOfUnpadded(s);
  }

  /** `parseInt` reads back every integer `String` writes: `parseInt(String(n), 10) == n`. */
  lemma {:induction false} ParseIntOfIntToString(n: int)
    ensures ParseInt(IntToString(n)) == Some(n)
  {
    var m: nat := if n < 0 then -n else n;
    DigitsValueOfDecimal(m);
    if n < 0 {
      ParseIntOfNegativeDigits(Decimal(m));
    } else {
      ParseIntOfDigits(Decimal(m));
    }
  }

  /**
    `parseInt(q, 10) || d`: the parsed query parameter, or `d` when it is absent, unparsable (NaN) or
    zero. The result is never zero.
  */
  function ParamInt(q: Option<string>, d: int): (r: int)
    ensures d != 0 ==> r != 0
    ensures q.Some? && ParseInt(q.value).Some? && ParseInt(q.value).value != 0 ==> r == ParseInt(q.value).value
    ensures q.None? || ParseInt(q.value).None? || ParseInt(q.value) == Some(0) ==> r == d
  {
    if q.None? then d
    else match ParseInt(q.value)
      case None => d
      case Some(n) => if n == 0 then d else n
  }

  /** A page and limit the client sent as numbers come back unchanged (unless zero). */
  lemma {:induction false} ParamIntOfNumber(n: int, d: int)
    requires n != 0
    ensures ParamInt(Some(IntToString(n)), d) == n
  {
    ParseIntOfIntToString(n);
  }

  // ---------------------------------------------------------------------------
  // Paging arithmetic
  // ---------------------------------------------------------------------------

  /** `Math.ceil(a / b)` for a count `a` and a non-zero integer `b`. */
  function CeilDiv(a: nat, b: int): int
    requires b != 0
  {
    if b > 0 then (a + b - 1) / b else -(a / -b)
  }

  /** `CeilDiv(a, b)` is the least number of `b`-sized pages that hold `a` items. */
  lemma {:induction false} CeilDivBounds(a: nat, b: int)
    requires b != 0
    ensures var r := CeilDiv(a, b);
      && (b > 0 ==> (r - 1) * b < a <= r * b)
      && (b < 0 ==> r * b <= a < (r - 1) * b)
  {
  }

  /** `(page - 1) * limit`: how many of the newest matching messages the page passes over. */
  function Skip(page: int, limit: int): int
  {
    (page - 1) * limit
  }

  /** How many documents `.limit(limit)` lets through: a negative limit asks for `-limit` in one batch. */
  function LimitCount(limit: int): nat
  {
    if limit < 0 then -limit else limit
  }

  // ---------------------------------------------------------------------------
  // The query pipeline
  // ---------------------------------------------------------------------------

  /** `ms` is ordered newest first. */
  predicate NewestFirstOrder(ms: seq<MessageRecord>)
  {
    forall i, j :: 0 <= i < j < |ms| ==> ms[i].createdAt >= ms[j].createdAt
  }

  /** `ms` is ordered oldest first. */
  predicate OldestFirstOrder(ms: seq<MessageRecord>)
  {
    forall i, j :: 0 <= i < j < |ms| ==> ms[i].createdAt <= ms[j].createdAt
  }

  /** Puts `m` into the sequence `ms`, ahead of the first message no newer than it. */
  function InsertNewest(m: MessageRecord, ms: seq<MessageRecord>): (r: seq<MessageRecord>)
    ensures |r| == |ms| + 1
    ensures multiset(r) == multiset(ms) + multiset{m}
  {
    if ms == [] || ms[0].createdAt <= m.createdAt then [m] + ms
    else
      assert ms == [ms[0]] + ms[1..];
      [ms[0]] + InsertNewest(m, ms[1..])
  }

  /** Inserting into a newest-first sequence keeps it newest first. */
  lemma {:induction false} InsertNewestOrder(m: MessageRecord, ms: seq<MessageRecord>)
    requires NewestFirstOrder(ms)
    ensures NewestFirstOrder(InsertNewest(m, ms))
  {
    if !(ms == [] || ms[0].createdAt <= m.createdAt) {
      var rest := InsertNewest(m, ms[1..]);
      InsertNewestOrder(m, ms[1..]);
      forall k | 0 <= k < |rest| ensures rest[k].createdAt <= ms[0].createdAt {
        assert rest[k] in multiset(rest);
        if rest[k] != m {
          assert rest[k] in multiset(ms[1..]);
          var j :| 0 <= j < |ms[1..]| && ms[1..][j] == rest[k];
          assert ms[j + 1] == rest[k];
        }
      }
      assert InsertNewest(m, ms) == [ms[0]] + rest;
    }
  }

  /** `.sort({createdAt: -1})`: a rearrangement of the messages; messages with equal times keep their store order. */
  function NewestFirst(ms: seq<MessageRecord>): (r: seq<MessageRecord>)
    ensures |r| == |ms|
    ensures multiset(r) == multiset(ms)
  {
    if ms == [] then []
    else
      assert ms == [ms[0]] + ms[1..];
      InsertNewest(ms[0], NewestFirst(ms[1..]))
  }

  /** The sort leaves the messages newest first. */
  lemma {:induction false} NewestFirstOrdered(ms: seq<MessageRecord>)
    ensures NewestFirstOrder(NewestFirst(ms))
  {
    if ms != [] {
      NewestFirstOrdered(ms[1..]);
      InsertNewestOrder(ms[0], NewestFirst(ms[1..]));
    }
  }

  /** `Array.prototype.reverse`. */
  function Reverse<T>(s: seq<T>): (r: seq<T>)
    ensures |r| == |s|
    ensures forall i :: 0 <= i < |s| ==> r[i] == s[|s| - 1 - i]
  {
    if s == [] then [] else Reverse(s[1..]) + [s[0]]
  }

  /** `.skip(skip).limit(limit)` on a sorted result, for a skip the driver accepts. */
  function Window<T>(s: seq<T>, skip: nat, limit: int): (r: seq<T>)
    ensures var lo := if skip < |s| then skip else |s|;
      var hi := if lo + LimitCount(limit) < |s| then lo + LimitCount(limit) else |s|;
      r == s[lo..hi]
  {
    var rest := if skip < |s| then s[skip..] else [];
    if LimitCount(limit) < |rest| then rest[..LimitCount(limit)] else rest
  }

  /**
    The page cut out of the sorted order and turned round: the block of `sorted` from position `skip`
    (at most `|limit|` long) in reverse order.
  */
  function PageOf(sorted: seq<MessageRecord>, skip: nat, limit: int): (r: seq<MessageRecord>)
    ensures var lo := if skip < |sorted| then skip else |sorted|;
      && |r| == (if lo + LimitCount(limit) < |sorted| then LimitCount(limit) else |sorted| - lo)
      && ReversedBlock(sorted, lo, r)
  {
    Reverse(Window(sorted, skip, limit))
  }

  /** `r` is the block of `sorted` that starts at `lo`, in reverse order. */
  predicate ReversedBlock(sorted: seq<MessageRecord>, lo: nat, r: seq<MessageRecord>)
  {
    lo + |r| <= |sorted| && forall i :: 0 <= i < |r| ==> r[i] == sorted[lo + |r| - 1 - i]
  }

  /** A block of a newest-first sequence, turned round, is oldest first. */
  lemma {:induction false} ReversedBlockOldestFirst(sorted: seq<MessageRecord>, lo: nat, r: seq<MessageRecord>)
    requires NewestFirstOrder(sorted) && ReversedBlock(sorted, lo, r)
    ensures OldestFirstOrder(r)
  {
    forall i, j | 0 <= i < j < |r| ensures r[i].createdAt <= r[j].createdAt {
      assert r[i] == sorted[lo + |r| - 1 - i] && r[j] == sorted[lo + |r| - 1 - j];
    }
  }

  /** In a newest-first sequence, whatever comes after a block is no newer than anything in it. */
  lemma {:induction false} ReversedBlockBounds(sorted: seq<MessageRecord>, lo: nat, r: seq<MessageRecord>)
    requires NewestFirstOrder(sorted) && ReversedBlock(sorted, lo, r)
    ensures forall i, j :: 0 <= i < |r| && lo + |r| <= j < |sorted| ==> sorted[j].createdAt <= r[i].createdAt
  {
    forall i, j | 0 <= i < |r| && lo + |r| <= j < |sorted| ensures sorted[j].createdAt <= r[i].createdAt {
      assert r[i] == sorted[lo + |r| - 1 - i];
    }
  }

  /** The response of a history endpoint: 200 with the page, or 500 'Server error'. */
  datatype HistoryResponse =
    | History(count: nat, total: nat, page: int, pages: int, data: seq<MessageRecord>)
    | HistoryError

  /**
    The shared tail of both history endpoints: given the messages the filter matches (or a failed
    query), sort newest first, skip, limit, and answer oldest first with the page counters.
  */
  function Paginate(matching: Option<seq<MessageRecord>>, page: int, limit: int): (r: HistoryResponse)
    requires limit != 0
    ensures r.HistoryError? <==> matching.None? || Skip(page, limit) < 0
    ensures r.History? ==>
      && r.count == |r.data| <= LimitCount(limit)
      && r.total == |matching.value|
      && r.page == page
      && r.pages == CeilDiv(r.total, limit)
      && OldestFirstOrder(r.data)
      && (forall i :: 0 <= i < |r.data| ==> r.data[i] in matching.value)
  {
    if matching.None? || Skip(page, limit) < 0 then HistoryError
    else
      var sorted := NewestFirst(matching.value);
      var data := PageOf(sorted, Skip(page, limit), limit);
      NewestFirstOrdered(matching.value);
      ReversedBlockOldestFirst(sorted, if Skip(page, limit) < |sorted| then Skip(page, limit) else |sorted|, data);
      assert forall i :: 0 <= i < |data| ==> data[i] in multiset(sorted);
      History(|data|, |matching.value|, page, CeilDiv(|matching.value|, limit), data)
  }

  /** The room filter `{room, isPrivate: false}`. */
  predicate InRoom(room: Room, m: MessageRecord)
  {
    m.room == room && !m.isPrivate
  }

  /** The private filter: private, and from `a` to `b` or from `b` to `a`. */
  predicate BetweenPair(a: UserId, b: UserId, m: MessageRecord)
  {
    m.isPrivate && ((m.sender == a && m.recipient == Some(b)) || (m.sender == b && m.recipient == Some(a)))
  }

  /** `getMessages`: one page of the public history of `room`. `store` is `None` when the database fails. */
  function GetMessages(store: Option<seq<MessageRecord>>, room: Room, pageQ: Option<string>, limitQ: Option<string>): (r: HistoryResponse)
    ensures r.HistoryError? <==> store.None? || Skip(ParamInt(pageQ, DefaultPage), ParamInt(limitQ, DefaultLimit)) < 0
    ensures r.History? ==> store.Some? && forall i :: 0 <= i < |r.data| ==> InRoom(room, r.data[i]) && r.data[i] in store.value
    ensures r.History? ==> store.Some? && r.total == |Filter(store.value, m => InRoom(room, m))|
  {
    var matching := if store.None? then None else Some(Filter(store.value, m => InRoom(room, m)));
    Paginate(matching, ParamInt(pageQ, DefaultPage), ParamInt(limitQ, DefaultLimit))
  }

  /** `getPrivateMessages`: one page of the private conversation between `me` and `other`. */
  function GetPrivateMessages(
    store: Option<seq<MessageRecord>>, me: UserId, other: UserId, pageQ: Option<string>, limitQ: Option<string>): (r: HistoryResponse)
    ensures r.HistoryError? <==> store.None? || Skip(ParamInt(pageQ, DefaultPage), ParamInt(limitQ, DefaultLimit)) < 0
    ensures r.History? ==> store.Some? && forall i :: 0 <= i < |r.data| ==> BetweenPair(me, other, r.data[i]) && r.data[i] in store.value
    ensures r.History? ==> store.Some? && r.total == |Filter(store.value, m => BetweenPair(me, other, m))|
  {
    var matching := if store.None? then None else Some(Filter(store.value, m => BetweenPair(me, other, m)));
    Paginate(matching, ParamInt(pageQ, DefaultPage), ParamInt(limitQ, DefaultLimit))
  }

  /** Both participants of a private conversation get the same history for the same page request. */
  lemma {:induction false} PrivateHistorySymmetric(store: Option<seq<MessageRecord>>, a: UserId, b: UserId, pageQ: Option<string>, limitQ: Option<string>)
    ensures GetPrivateMessages(store, a, b, pageQ, limitQ) == GetPrivateMessages(store, b, a, pageQ, limitQ)
  {
    if store.Some? {
      FilterSamePredicate(store.value, m => BetweenPair(a, b, m), m => BetweenPair(b, a, m));
    }
  }

  /**
    Page `page` holds, oldest first, the messages at positions `skip` to `skip + |limit|` of the
    newest-first order: on page 1 the newest ones.
  */
  lemma {:induction false} PageIsNewestBlock(matching: seq<MessageRecord>, page: int, limit: int)
    requires limit != 0 && Skip(page, limit) >= 0
    ensures var r := Paginate(Some(matching), page, limit);
      var sorted := NewestFirst(matching);
      var lo := if Skip(page, limit) < |sorted| then Skip(page, limit) else |sorted|;
      ReversedBlock(sorted, lo, r.data)
  {
    var sorted := NewestFirst(matching);
    assert Paginate(Some(matching), page, limit).data == PageOf(sorted, Skip(page, limit), limit);
  }

  /** Every matching message a page leaves out beyond its end is no newer than any message it returns. */
  lemma {:induction false} PageLeavesOnlyOlder(matching: seq<MessageRecord>, page: int, limit: int)
    requires limit != 0 && Skip(page, limit) >= 0
    ensures var r := Paginate(Some(matching), page, limit);
      var sorted := NewestFirst(matching);
      var lo := if Skip(page, limit) < |sorted| then Skip(page, limit) else |sorted|;
      forall i, j :: 0 <= i < |r.data| && lo + |r.data| <= j < |sorted| ==> sorted[j].createdAt <= r.data[i].createdAt
  {
    var sorted := NewestFirst(matching);
    assert Paginate(Some(matching), page, limit).data == PageOf(sorted, Skip(page, limit), limit);
    NewestFirstOrdered(matching);
    ReversedBlockBounds(sorted, if Skip(page, limit) < |sorted| then Skip(page, limit) else |sorted|, PageOf(sorted, Skip(page, limit), limit));
  }

  /** Multiplying by a non-negative factor keeps the order. */
  lemma {:induction false} MulMonotone(a: int, b: int, l: int)
    requires a <= b && l >= 0
    ensures a * l <= b * l
  {
    assert b * l - a * l == (b - a) * l;
  }

  /** A page holds `|limit|` messages, or whatever is left past the skipped ones when fewer remain. */
  lemma {:induction false} PageCount(matching: seq<MessageRecord>, page: int, limit: int)
    requires limit != 0 && Skip(page, limit) >= 0
    ensures var r := Paginate(Some(matching), page, limit);
      var left := if Skip(page, limit) < |matching| then |matching| - Skip(page, limit) else 0;
      r.count == if LimitCount(limit) < left then LimitCount(limit) else left
  {
    assert |NewestFirst(matching)| == |matching|;
  }

  /** With a positive limit and a page from 1 on, the page is non-empty exactly when it is one of the `pages` pages. */
  lemma {:induction false} PageNonEmptyIffWithinPages(matching: seq<MessageRecord>, page: int, limit: int)
    requires limit > 0 && page >= 1
    ensures var r := Paginate(Some(matching), page, limit);
      r.count > 0 <==> page <= r.pages
  {
    var total := |matching|;
    var pages := CeilDiv(total, limit);
    CeilDivBounds(total, limit);
    var skip := Skip(page, limit);
    MulMonotone(0, page - 1, limit);
    PageCount(matching, page, limit);
    if page <= pages {
      MulMonotone(page - 1, pages - 1, limit);
      assert skip < total;
    } else {
      MulMonotone(pages, page - 1, limit);
      assert skip >= total;
    }
  }

  /** The response of a user-list endpoint. */
  datatype UsersResponse = UsersOk(count: nat, data: seq<UserRecord>) | UsersError

  /** `getOnlineUsers`: every online user, in store order. */
  function GetOnlineUsers(store: Option<seq<UserRecord>>): (r: UsersResponse)
    ensures r.UsersError? <==> store.None?
    ensures r.UsersOk? ==> r.count == |r.data|
    ensures r.UsersOk? ==> forall i :: 0 <= i < |r.data| ==> r.data[i].isOnline && r.data[i] in store.value
    ensures r.UsersOk? ==> forall i :: 0 <= i < |store.value| && store.value[i].isOnline ==> store.value[i] in r.data
  {
    if store.None? then UsersError
    else
      var data := Filter(store.value, (u: UserRecord) => u.isOnline);
      UsersOk(|data|, data)
  }

  /** `getAllUsers`: every user but the one asking, in store order. */
  function GetAllUsers(store: Option<seq<UserRecord>>, me: UserId): (r: UsersResponse)
    ensures r.UsersError? <==> store.None?
    ensures r.UsersOk? ==> r.count == |r.data|
    ensures r.UsersOk? ==> forall i :: 0 <= i < |r.data| ==> r.data[i].id != me && r.data[i] in store.value
    ensures r.UsersOk? ==> forall i :: 0 <= i < |store.value| && store.value[i].id != me ==> store.value[i] in r.data
  {
    if store.None? then UsersError
    else
      var data := Filter(store.value, (u: UserRecord) => u.id != me);
      UsersOk(|data|, data)
  }
}
