/** What the conversion guarantees, stated against reference definitions
    of the three index spaces (a user's or coupon's position in the input
    tables) rather than against the joins that compute them.

    Most statements assume the inputs the loader is written for: user ids
    are distinct, and coupon ids are distinct across the train table
    followed by the test table.  With a repeated id the left merges on it
    would multiply rows (see `Tables.LeftJoin`). */
module Properties {
  import opened Tables
  import opened Notation
  import opened Pipeline

  /** The user's position in the user table, as an indicator token. */
  function UserToken(users: seq<UserId>, u: UserId): Option<string> {
    if u in users then Some(LibfmNotation(IndexOf(users, u))) else None
  }

  /** The coupon's position in train ++ test, shifted past the users, as an indicator token. */
  function ItemToken(ids: seq<CouponId>, numUsers: nat, c: CouponId): Option<string> {
    if c in ids then Some(LibfmNotation(numUsers + IndexOf(ids, c))) else None
  }

  /** The coupon's similar-item slot: its item index shifted past all items. */
  function ItemSlot(ids: seq<CouponId>, numUsers: nat, c: CouponId): Option<nat> {
    if c in ids then Some(numUsers + |ids| + IndexOf(ids, c)) else None
  }

  /** The similar-item list a join with `rated` attaches to a user. */
  function FeaturesOf(rated: seq<SimilEntry>, u: UserId): Option<seq<SimilToken>> {
    FeaturesIn(Lookup(rated, EntryKey, u))
  }

  /** The coupons of user `u` among the de-duplicated pairs, in order. */
  function UserCoupons(pairs: seq<Pair>, u: UserId): seq<CouponId> {
    Project(Matches(pairs, PairUser, u), PairCoupon)
  }

  // Index assignment.

  /** Users are numbered 0 .. |users|-1 in row order, and no two users share a token. */
  lemma UserFrameIndices(users: seq<UserId>)
    ensures |UserFrame(users)| == |users|
    ensures forall i :: 0 <= i < |users| ==>
      UserFrame(users)[i].userId == users[i] && ParseNotation(UserFrame(users)[i].userIndex) == Some(i)
    ensures forall i, j :: 0 <= i < j < |users| ==> UserFrame(users)[i].userIndex != UserFrame(users)[j].userIndex
  {
    forall i | 0 <= i < |users| ensures ParseNotation(UserFrame(users)[i].userIndex) == Some(i) {
      NotationRoundTrip(i);
    }
    forall i, j | 0 <= i < j < |users| ensures UserFrame(users)[i].userIndex != UserFrame(users)[j].userIndex {
      NotationInjective(i, j);
    }
  }

  /** With distinct user ids, `user_df` has one row per user id. */
  lemma UserFrameKeysUnique(users: seq<UserId>)
    requires NoDup(users)
    ensures KeysUnique(UserFrame(users), UserKey)
  {
  }

  /** Merging on the user id attaches the user's position, or nothing for an unknown user. */
  lemma UserFrameLookup(users: seq<UserId>, u: UserId)
    requires NoDup(users)
    ensures KeysUnique(UserFrame(users), UserKey)
    ensures UserIndexIn(Lookup(UserFrame(users), UserKey, u)) == UserToken(users, u)
  {
    var uf := UserFrame(users);
    UserFrameKeysUnique(users);
    if u in users {
      LookupAt(uf, UserKey, IndexOf(users, u));
    }
  }

  /** The combined coupon table lists train coupons, then test coupons,
      numbered from 0, with `type` "train" exactly on the first |train| rows. */
  lemma CouponFrameOrder(train: seq<CouponId>, test: seq<CouponId>)
    ensures |CouponFrame(train, test)| == |train| + |test|
    ensures forall i :: 0 <= i < |train| + |test| ==>
      var c := CouponFrame(train, test)[i];
      c.index == i && c.couponId == (train + test)[i] && (c.kind == Train <==> i < |train|)
    ensures Project(CouponFrame(train, test), CouponIdOf) == train + test
  {
    var cf := CouponFrame(train, test);
    var tagged := Project(train, (c: CouponId) => (c, Train)) + Project(test, (c: CouponId) => (c, Test));
    forall i | 0 <= i < |cf|
      ensures cf[i].index == i && cf[i].couponId == (train + test)[i] && (cf[i].kind == Train <==> i < |train|)
    {
      if i < |train| {
        assert tagged[i] == (train[i], Train);
      } else {
        assert tagged[i] == (test[i - |train|], Test);
      }
    }
    assert Project(cf, CouponIdOf) == train + test;
  }

  /** Item tokens are the contiguous range |users| .. |users|+numItems-1 in
      coupon-table order, and each slot is its item index plus numItems. */
  lemma ItemFrameIndices(users: seq<UserId>, train: seq<CouponId>, test: seq<CouponId>)
    ensures |ItemFrameOf(users, train, test)| == |train| + |test|
    ensures forall i :: 0 <= i < |train| + |test| ==>
      var e := ItemFrameOf(users, train, test)[i];
      e.couponId == (train + test)[i]
      && ParseNotation(e.itemIndex) == Some(|users| + i)
      && e.similItemIndex == |users| + i + (|train| + |test|)
  {
    CouponFrameOrder(train, test);
    forall i | 0 <= i < |train| + |test|
      ensures ParseNotation(ItemFrameOf(users, train, test)[i].itemIndex) == Some(|users| + i)
    {
      NotationRoundTrip(|users| + i);
    }
  }

  /** User tokens, item tokens and similar-item slots occupy the disjoint
      ranges [0, nu), [nu, nu+ni) and [nu+ni, nu+2ni). */
  lemma IndexSpacesDisjoint(users: seq<UserId>, train: seq<CouponId>, test: seq<CouponId>)
    ensures var nu, ni := |users|, |train| + |test|;
      var uf, itf := UserFrame(users), ItemFrameOf(users, train, test);
      (forall i :: 0 <= i < |uf| ==> ParseNotation(uf[i].userIndex).Some? && ParseNotation(uf[i].userIndex).value < nu)
      && (forall j :: 0 <= j < |itf| ==>
            ParseNotation(itf[j].itemIndex).Some? && nu <= ParseNotation(itf[j].itemIndex).value < nu + ni)
      && (forall j :: 0 <= j < |itf| ==> nu + ni <= itf[j].similItemIndex < nu + 2 * ni)
      && (forall i, j :: 0 <= i < |uf| && 0 <= j < |itf| ==> uf[i].userIndex != itf[j].itemIndex)
  {
    UserFrameIndices(users);
    ItemFrameIndices(users, train, test);
  }

  /** With distinct coupon ids every train coupon is numbered before every
      test coupon: a train coupon keeps its train position, a test coupon
      comes after all train coupons. */
  lemma TrainBeforeTest(train: seq<CouponId>, test: seq<CouponId>, c: CouponId)
    requires NoDup(train + test)
    ensures c in train ==> IndexOf(train + test, c) == IndexOf(train, c) < |train|
    ensures c in test ==> IndexOf(train + test, c) == |train| + IndexOf(test, c)
  {
    var ids := train + test;
    if c in train {
      var k := IndexOf(train, c);
      assert ids[k] == c;
      assert forall j :: 0 <= j < k ==> ids[j] == train[j];
    }
    if c in test {
      var k := IndexOf(test, c);
      assert ids[|train| + k] == c;
      forall j | 0 <= j < |train| + k ensures ids[j] != c {
        if j >= |train| {
          assert ids[j] == test[j - |train|];
        }
      }
    }
  }

  /** Row i of `item_df`, spelled out. */
  lemma ItemFrameAt(users: seq<UserId>, train: seq<CouponId>, test: seq<CouponId>, i: nat)
    requires i < |train| + |test|
    ensures |ItemFrameOf(users, train, test)| == |train| + |test|
    ensures ItemFrameOf(users, train, test)[i]
      == ItemEntry(LibfmNotation(|users| + i), (train + test)[i], |users| + i + (|train| + |test|))
  {
    CouponFrameOrder(train, test);
  }

  /** With distinct coupon ids, `item_df` has one row per coupon id. */
  lemma ItemFrameKeysUnique(users: seq<UserId>, train: seq<CouponId>, test: seq<CouponId>)
    requires NoDup(train + test)
    ensures KeysUnique(ItemFrameOf(users, train, test), ItemKey)
  {
    var itf := ItemFrameOf(users, train, test);
    forall i, j | 0 <= i < j < |itf| ensures ItemKey(itf[i]) != ItemKey(itf[j]) {
      ItemFrameAt(users, train, test, i);
      ItemFrameAt(users, train, test, j);
    }
  }

  /** Merging on the coupon id attaches the reference item token and slot. */
  lemma ItemFrameLookup(users: seq<UserId>, train: seq<CouponId>, test: seq<CouponId>, c: CouponId)
    requires NoDup(train + test)
    ensures KeysUnique(ItemFrameOf(users, train, test), ItemKey)
    ensures ItemIndexIn(Lookup(ItemFrameOf(users, train, test), ItemKey, c)) == ItemToken(train + test, |users|, c)
    ensures SlotIn(Lookup(ItemFrameOf(users, train, test), ItemKey, c)) == ItemSlot(train + test, |users|, c)
  {
    var itf := ItemFrameOf(users, train, test);
    var ids := train + test;
    ItemFrameKeysUnique(users, train, test);
    if c in ids {
      var n := IndexOf(ids, c);
      ItemFrameAt(users, train, test, n);
      LookupAt(itf, ItemKey, n);
      assert ids[n] == c && |ids| == |train| + |test|;
      assert Lookup(itf, ItemKey, c) == Some(itf[n]);
    } else {
      forall i | 0 <= i < |itf| ensures ItemKey(itf[i]) != c {
        ItemFrameAt(users, train, test, i);
      }
      assert Lookup(itf, ItemKey, c) == None;
    }
  }

  // Joins.

  /** Merging a table of pairs with `user_df`, `item_df` and a `rated` with
      one entry per user keeps one row per pair and attaches the reference
      indices and that user's similar-item list. */
  lemma JoinedRows(pairs: seq<Pair>, users: seq<UserId>, train: seq<CouponId>, test: seq<CouponId>,
                   rated: seq<SimilEntry>)
    requires NoDup(users) && NoDup(train + test) && KeysUnique(rated, EntryKey)
    ensures var rows := JoinFeatures(JoinIndices(pairs, UserFrame(users), ItemFrameOf(users, train, test)), rated);
      |rows| == |pairs|
      && forall i :: 0 <= i < |pairs| ==>
           rows[i] == Row(pairs[i].user, pairs[i].coupon, None, UserToken(users, pairs[i].user),
                          ItemToken(train + test, |users|, pairs[i].coupon), FeaturesOf(rated, pairs[i].user))
  {
    var uf, itf := UserFrame(users), ItemFrameOf(users, train, test);
    UserFrameKeysUnique(users);
    ItemFrameKeysUnique(users, train, test);
    var j1 := Project(pairs, NewRow);
    LeftJoinUnique(j1, uf, RowUser, UserKey, WithUser);
    var j2 := LeftJoin(j1, uf, RowUser, UserKey, WithUser);
    LeftJoinUnique(j2, itf, RowCoupon, ItemKey, WithItem);
    var j3 := LeftJoin(j2, itf, RowCoupon, ItemKey, WithItem);
    LeftJoinUnique(j3, rated, RowUser, EntryKey, WithFeatures);
    forall i | 0 <= i < |pairs|
      ensures JoinFeatures(j3, rated)[i] ==
        Row(pairs[i].user, pairs[i].coupon, None, UserToken(users, pairs[i].user),
            ItemToken(train + test, |users|, pairs[i].coupon), FeaturesOf(rated, pairs[i].user))
    {
      UserFrameLookup(users, pairs[i].user);
      ItemFrameLookup(users, train, test, pairs[i].coupon);
    }
  }

  // Similar-item lists.

  /** `rated` has one entry per user: the merges with it cannot multiply rows. */
  lemma RatedKeysUnique(visits: seq<Visit>, train: seq<CouponId>, purchases: seq<Purchase>, itemDf: seq<ItemEntry>)
    ensures KeysUnique(SimilarItems(visits, train, purchases, itemDf), EntryKey)
  {
    var joined := LeftJoin(RatedPairs(visits, train, purchases), itemDf, PairCoupon, ItemKey, WithSlot);
    GroupByKeysUnique(joined, SlotUser, Aggregate, EntryKey);
  }

  /** A pair is in the union before de-duplication iff it is a view of a
      train coupon or a purchase. */
  lemma RatedSourceMembers(visits: seq<Visit>, train: seq<CouponId>, purchases: seq<Purchase>, u: UserId, c: CouponId)
    ensures Pair(u, c) in RatedSource(visits, train, purchases) <==>
      (c in train && exists v :: v in visits && v.user == u && v.viewCoupon == c) || Purchase(u, c) in purchases
  {
    var views := Select(visits, ViewsOneOf(train));
    var a := Project(views, VisitPair);
    var b := Project(purchases, PurchasePair);
    assert RatedSource(visits, train, purchases) == a + b;
    if c in train && exists v :: v in visits && v.user == u && v.viewCoupon == c {
      var v :| v in visits && v.user == u && v.viewCoupon == c;
      assert ViewsOneOf(train)(v) && v in views;
      var k :| 0 <= k < |views| && views[k] == v;
      assert a[k] == Pair(u, c);
    }
    if Purchase(u, c) in purchases {
      var i :| 0 <= i < |purchases| && purchases[i] == Purchase(u, c);
      assert b[i] == Pair(u, c);
    }
    if Pair(u, c) in a {
      var k :| 0 <= k < |a| && a[k] == Pair(u, c);
      assert views[k] in views;
      assert views[k] in visits && ViewsOneOf(train)(views[k]);
    }
    if Pair(u, c) in b {
      var k :| 0 <= k < |b| && b[k] == Pair(u, c);
      assert purchases[k] == Purchase(u, c);
    }
  }

  /** The coupons of a user among the de-duplicated pairs are distinct. */
  lemma UserCouponsDistinct(visits: seq<Visit>, train: seq<CouponId>, purchases: seq<Purchase>, u: UserId)
    ensures NoDup(UserCoupons(RatedPairs(visits, train, purchases), u))
  {
    var r := RatedPairs(visits, train, purchases);
    var m := Matches(r, PairUser, u);
    var cs := UserCoupons(r, u);
    MatchesNoDup(r, PairUser, u);
    forall j, k | 0 <= j < k < |cs| ensures cs[j] != cs[k] {
      assert m[j] != m[k];
      assert m[j].user == u && m[k].user == u;
      assert cs[j] == m[j].coupon && cs[k] == m[k].coupon;
    }
  }

  /** The coupons of a user among the de-duplicated pairs are exactly the
      coupons the user viewed (train coupons only) or purchased. */
  lemma UserCouponsMembers(visits: seq<Visit>, train: seq<CouponId>, purchases: seq<Purchase>, u: UserId, c: CouponId)
    ensures c in UserCoupons(RatedPairs(visits, train, purchases), u) <==>
      (c in train && exists v :: v in visits && v.user == u && v.viewCoupon == c) || Purchase(u, c) in purchases
  {
    var src := RatedSource(visits, train, purchases);
    var r := RatedPairs(visits, train, purchases);
    var m := Matches(r, PairUser, u);
    var cs := UserCoupons(r, u);
    RatedSourceMembers(visits, train, purchases, u, c);
    assert c in cs ==> Pair(u, c) in m by {
      if c in cs {
        var j :| 0 <= j < |cs| && cs[j] == c;
        assert m[j].user == u && m[j].coupon == c;
      }
    }
    assert Pair(u, c) in m ==> c in cs by {
      if Pair(u, c) in m {
        var j :| 0 <= j < |m| && m[j] == Pair(u, c);
        assert cs[j] == c;
      }
    }
    assert Pair(u, c) in m <==> Pair(u, c) in r by {
      if Pair(u, c) in r {
        var i :| 0 <= i < |r| && r[i] == Pair(u, c);
        assert PairUser(r[i]) == u;
      }
    }
    assert Pair(u, c) in r <==> Pair(u, c) in src by {
      if Pair(u, c) in src {
        var i :| 0 <= i < |src| && src[i] == Pair(u, c);
      }
    }
  }

  /** Grouping the item-merged pairs gives a user an entry iff the user has
      a pair, and that entry aggregates the user's group. */
  lemma GroupEntry(r: seq<Pair>, itemDf: seq<ItemEntry>, u: UserId)
    requires KeysUnique(itemDf, ItemKey)
    ensures var joined := LeftJoin(r, itemDf, PairCoupon, ItemKey, WithSlot);
      var found := Lookup(GroupBy(joined, SlotUser, Aggregate), EntryKey, u);
      (found.Some? <==> |Matches(r, PairUser, u)| > 0)
      && (found.Some? ==> found.value == Aggregate(u, Matches(joined, SlotUser, u)))
  {
    var joined := LeftJoin(r, itemDf, PairCoupon, ItemKey, WithSlot);
    var m := Matches(r, PairUser, u);
    LeftJoinUnique(r, itemDf, PairCoupon, ItemKey, WithSlot);
    GroupByLookup(joined, SlotUser, Aggregate, EntryKey, u);
    if exists i :: 0 <= i < |joined| && SlotUser(joined[i]) == u {
      var i :| 0 <= i < |joined| && SlotUser(joined[i]) == u;
      assert PairUser(r[i]) == u;
      assert r[i] in m;
    }
    if |m| > 0 {
      assert m[0] in r && m[0].user == u;
      var i :| 0 <= i < |r| && r[i] == m[0];
      assert SlotUser(joined[i]) == u;
    }
  }

  /** A user has a `rated` entry iff they viewed a train coupon or purchased
      a coupon; the entry holds one token per distinct such coupon, in
      order, each for that coupon's slot, and every token carries the same
      weight, 1/sqrt of the number of tokens. */
  lemma SimilarItemsSpec(visits: seq<Visit>, users: seq<UserId>, train: seq<CouponId>, test: seq<CouponId>,
                         purchases: seq<Purchase>, u: UserId)
    requires NoDup(train + test)
    ensures var rated := SimilarItems(visits, train, purchases, ItemFrameOf(users, train, test));
      var cs := UserCoupons(RatedPairs(visits, train, purchases), u);
      (Lookup(rated, EntryKey, u).Some? <==> |cs| > 0)
      && (Lookup(rated, EntryKey, u).Some? ==>
            var f := Lookup(rated, EntryKey, u).value.features;
            |f| == |cs|
            && forall j :: 0 <= j < |f| ==> f[j] == SimilToken(ItemSlot(train + test, |users|, cs[j]), InvSqrt(|cs|)))
  {
    var itf := ItemFrameOf(users, train, test);
    var r := RatedPairs(visits, train, purchases);
    var joined := LeftJoin(r, itf, PairCoupon, ItemKey, WithSlot);
    var m := Matches(r, PairUser, u);
    var cs := UserCoupons(r, u);
    ItemFrameKeysUnique(users, train, test);
    GroupEntry(r, itf, u);
    assert SimilarItems(visits, train, purchases, itf) == GroupBy(joined, SlotUser, Aggregate);
    LeftJoinUnique(r, itf, PairCoupon, ItemKey, WithSlot);
    var f := (p: Pair) => WithSlot(p, Lookup(itf, ItemKey, p.coupon));
    MatchesPointwise(r, joined, PairUser, SlotUser, f, u);
    var g := Matches(joined, SlotUser, u);
    var found := Lookup(SimilarItems(visits, train, purchases, itf), EntryKey, u);
    if found.Some? {
      forall j | 0 <= j < |g|
        ensures found.value.features[j] == SimilToken(ItemSlot(train + test, |users|, cs[j]), InvSqrt(|cs|))
      {
        ItemFrameLookup(users, train, test, m[j].coupon);
      }
    }
  }

  /** A user's similar-item list, when present, is never empty; so in the
      training rows an empty list cannot occur, only a missing one. */
  lemma FeaturesNeverEmpty(visits: seq<Visit>, users: seq<UserId>, train: seq<CouponId>, test: seq<CouponId>,
                           purchases: seq<Purchase>, u: UserId)
    requires NoDup(train + test)
    ensures FeaturesOf(SimilarItems(visits, train, purchases, ItemFrameOf(users, train, test)), u) != Some([])
  {
    SimilarItemsSpec(visits, users, train, test, purchases, u);
  }

  // Positive examples.

  /** The rows are in one-to-one correspondence with the pairs, in order. */
  predicate RowsOfPairs(rows: seq<Row>, pairs: seq<Pair>) {
    |rows| == |pairs| && forall i :: 0 <= i < |rows| ==> rows[i].userId == pairs[i].user && rows[i].couponId == pairs[i].coupon
  }

  lemma RowsOfDistinctPairs(rows: seq<Row>, pairs: seq<Pair>)
    requires RowsOfPairs(rows, pairs) && NoDup(pairs)
    ensures forall i, j :: 0 <= i < j < |rows| ==> rows[i].userId != rows[j].userId || rows[i].couponId != rows[j].couponId
  {
    forall i, j | 0 <= i < j < |rows| ensures rows[i].userId != rows[j].userId || rows[i].couponId != rows[j].couponId {
      assert pairs[i] != pairs[j];
    }
  }

  /** The distinct purchase pairs are exactly the purchases. */
  lemma PositivePairsMembers(purchases: seq<Purchase>, u: UserId, c: CouponId)
    ensures Pair(u, c) in PositivePairs(purchases) <==> Purchase(u, c) in purchases
  {
    var projected := Project(purchases, PurchasePair);
    if Purchase(u, c) in purchases {
      var i :| 0 <= i < |purchases| && purchases[i] == Purchase(u, c);
      assert projected[i] == Pair(u, c);
    }
    if Pair(u, c) in PositivePairs(purchases) {
      var i :| 0 <= i < |projected| && projected[i] == Pair(u, c);
      assert purchases[i] == Purchase(u, c);
    }
  }

  /** One positive row per distinct (user, coupon) purchase pair, no two rows
      for the same pair, each with target 1.0, the reference indices and the
      user's similar-item list. */
  lemma PositiveExamplesSpec(users: seq<UserId>, train: seq<CouponId>, test: seq<CouponId>,
                             purchases: seq<Purchase>, visits: seq<Visit>)
    requires NoDup(users) && NoDup(train + test)
    ensures var rated := RatedOf(users, train, test, purchases, visits);
      var rows := PositiveExamples(purchases, UserFrame(users), ItemFrameOf(users, train, test), rated);
      var pairs := PositivePairs(purchases);
      |rows| == |pairs|
      && (forall i :: 0 <= i < |rows| ==>
            rows[i] == Row(pairs[i].user, pairs[i].coupon, Some(Literal(1.0)), UserToken(users, pairs[i].user),
                           ItemToken(train + test, |users|, pairs[i].coupon), FeaturesOf(rated, pairs[i].user)))
      && (forall i, j :: 0 <= i < j < |rows| ==> rows[i].userId != rows[j].userId || rows[i].couponId != rows[j].couponId)
      && (forall u, c :: Pair(u, c) in pairs <==> Purchase(u, c) in purchases)
  {
    var rated := RatedOf(users, train, test, purchases, visits);
    var pairs := PositivePairs(purchases);
    var itf := ItemFrameOf(users, train, test);
    RatedKeysUnique(KnownVisits(visits, CouponFrame(train, test)), train, purchases, itf);
    JoinedRows(pairs, users, train, test, rated);
    var rows := PositiveExamples(purchases, UserFrame(users), itf, rated);
    assert RowsOfPairs(rows, pairs);
    RowsOfDistinctPairs(rows, pairs);
    forall u, c ensures Pair(u, c) in pairs <==> Purchase(u, c) in purchases {
      PositivePairsMembers(purchases, u, c);
    }
  }

  // Negative examples.

  /** The user's purchase probability, as the estimate table gives it. */
  function Probability(estimates: seq<Estimate>, u: UserId): Option<real> {
    match Lookup(estimates, EstimateKey, u) case None => None case Some(e) => Some(e.probPurchase)
  }

  /** The distinct unpurchased pairs are exactly the pairs of visits to a
      known coupon with purchase flag 0. */
  lemma NegativePairsMembers(visits: seq<Visit>, train: seq<CouponId>, test: seq<CouponId>, u: UserId, c: CouponId)
    ensures Pair(u, c) in NegativePairs(KnownVisits(visits, CouponFrame(train, test))) <==>
      exists v :: v in visits && v == Visit(u, c, 0) && c in train + test
  {
    CouponFrameOrder(train, test);
    var known := KnownVisits(visits, CouponFrame(train, test));
    var unp := Select(known, Unpurchased);
    var projected := Project(unp, VisitPair);
    assert forall v :: v in known <==> v in visits && v.viewCoupon in train + test;
    if exists v :: v in visits && v == Visit(u, c, 0) && c in train + test {
      var v :| v in visits && v == Visit(u, c, 0) && c in train + test;
      assert v in unp;
      var k :| 0 <= k < |unp| && unp[k] == v;
      assert projected[k] == Pair(u, c) && projected[k] in projected;
    }
    if Pair(u, c) in NegativePairs(known) {
      assert Pair(u, c) in projected;
      var k :| 0 <= k < |projected| && projected[k] == Pair(u, c);
      assert unp[k] in unp;
    }
  }

  /** One negative row per distinct (user, coupon) pair among unpurchased
      visits to known coupons; the target is the user's probability, its
      cube root exactly when the coupon is a test coupon, and missing when
      the user has no estimate. */
  lemma NegativeExamplesSpec(users: seq<UserId>, train: seq<CouponId>, test: seq<CouponId>,
                             purchases: seq<Purchase>, visits: seq<Visit>, estimates: seq<Estimate>)
    requires NoDup(users) && NoDup(train + test) && KeysUnique(estimates, EstimateKey)
    ensures var known := KnownVisits(visits, CouponFrame(train, test));
      var rated := RatedOf(users, train, test, purchases, visits);
      var rows := NegativeExamples(known, UserFrame(users), ItemFrameOf(users, train, test), rated, estimates, test);
      var pairs := NegativePairs(known);
      |rows| == |pairs|
      && (forall i :: 0 <= i < |rows| ==>
            var prob := Probability(estimates, pairs[i].user);
            rows[i].userId == pairs[i].user && rows[i].couponId == pairs[i].coupon
            && rows[i].userIndex == UserToken(users, pairs[i].user)
            && rows[i].itemIndex == ItemToken(train + test, |users|, pairs[i].coupon)
            && rows[i].similItemIndex == FeaturesOf(rated, pairs[i].user)
            && rows[i].target == (if prob.None? then None
                                  else if pairs[i].coupon in test then Some(CubeRoot(Literal(prob.value)))
                                  else Some(Literal(prob.value))))
      && (forall i, j :: 0 <= i < j < |rows| ==> rows[i].userId != rows[j].userId || rows[i].couponId != rows[j].couponId)
  {
    var known := KnownVisits(visits, CouponFrame(train, test));
    var rated := RatedOf(users, train, test, purchases, visits);
    var pairs := NegativePairs(known);
    var itf := ItemFrameOf(users, train, test);
    RatedKeysUnique(known, train, purchases, itf);
    JoinedRows(pairs, users, train, test, rated);
    var joined := JoinFeatures(JoinIndices(pairs, UserFrame(users), itf), rated);
    LeftJoinUnique(joined, estimates, RowUser, EstimateKey, WithProbability);
    var rows := NegativeExamples(known, UserFrame(users), itf, rated, estimates, test);
    assert RowsOfPairs(rows, pairs);
    RowsOfDistinctPairs(rows, pairs);
  }

  /** The training set is the positive rows followed by the negative rows. */
  lemma TrainingSetShape(users: seq<UserId>, train: seq<CouponId>, test: seq<CouponId>,
                         purchases: seq<Purchase>, visits: seq<Visit>, estimates: seq<Estimate>)
    requires NoDup(users) && NoDup(train + test) && KeysUnique(estimates, EstimateKey)
    ensures var rows := TrainingSet(users, train, test, purchases, visits, estimates);
      var np := |PositivePairs(purchases)|;
      |rows| == np + |NegativePairs(KnownVisits(visits, CouponFrame(train, test)))|
      && (forall i :: 0 <= i < np ==> rows[i].target == Some(Literal(1.0)))
      && (forall i :: 0 <= i < |rows| ==> rows[i].similItemIndex != Some([]))
  {
    var known := KnownVisits(visits, CouponFrame(train, test));
    var rated := RatedOf(users, train, test, purchases, visits);
    var pos := PositiveExamples(purchases, UserFrame(users), ItemFrameOf(users, train, test), rated);
    var neg := NegativeExamples(known, UserFrame(users), ItemFrameOf(users, train, test), rated, estimates, test);
    PositiveExamplesSpec(users, train, test, purchases, visits);
    NegativeExamplesSpec(users, train, test, purchases, visits, estimates);
    assert TrainingSet(users, train, test, purchases, visits, estimates) == pos + neg;
    forall i | 0 <= i < |pos| ensures pos[i].similItemIndex != Some([]) {
      FeaturesNeverEmpty(known, users, train, test, purchases, PositivePairs(purchases)[i].user);
    }
    forall i | 0 <= i < |neg| ensures neg[i].similItemIndex != Some([]) {
      FeaturesNeverEmpty(known, users, train, test, purchases, NegativePairs(known)[i].user);
    }
  }

  // Test examples.

  /** Selecting the test coupons from `item_df` leaves exactly the rows after the train coupons. */
  lemma TestItemsAreSuffix(users: seq<UserId>, train: seq<CouponId>, test: seq<CouponId>)
    requires NoDup(train + test)
    ensures TestItemFrame(ItemFrameOf(users, train, test), test) == ItemFrameOf(users, train, test)[|train|..]
  {
    var itf := ItemFrameOf(users, train, test);
    var ids := train + test;
    ItemFrameIndices(users, train, test);
    forall i | 0 <= i < |train| ensures !ListedIn(test)(itf[i]) {
      assert itf[i].couponId == ids[i] == train[i];
      forall j | 0 <= j < |test| ensures test[j] != train[i] {
        assert ids[|train| + j] == test[j];
      }
    }
    forall i | |train| <= i < |itf| ensures ListedIn(test)(itf[i]) {
      assert itf[i].couponId == test[i - |train|];
    }
    SelectSuffix(itf, ListedIn(test), |train|);
  }

  /** The test items are the test coupons in order, indexed after users and train coupons. */
  lemma TestItemAt(users: seq<UserId>, train: seq<CouponId>, test: seq<CouponId>, j: nat)
    requires NoDup(train + test) && j < |test|
    ensures var tif := TestItemFrame(ItemFrameOf(users, train, test), test);
      |tif| == |test| && tif[j].couponId == test[j] && tif[j].itemIndex == LibfmNotation(|users| + |train| + j)
  {
    var itf := ItemFrameOf(users, train, test);
    TestItemsAreSuffix(users, train, test);
    ItemFrameIndices(users, train, test);
    assert TestItemFrame(itf, test)[j] == itf[|train| + j];
    assert (train + test)[|train| + j] == test[j];
  }

  /** A test row: the candidate pair, target -1.0, and the user's similar-item
      list, or the empty list when the user has none. */
  function TestCell(rated: seq<SimilEntry>): (UserEntry, ItemEntry) -> Row {
    (u: UserEntry, e: ItemEntry) =>
      Row(u.userId, e.couponId, Some(Literal(-1.0)), Some(u.userIndex), Some(e.itemIndex),
          Some(match FeaturesOf(rated, u.userId) case None => [] case Some(f) => f))
  }

  /** The test set is every user crossed with every test coupon, user-major,
      each cell a test row; the test items are the test coupons in order. */
  lemma TestExamplesSpec(users: seq<UserId>, train: seq<CouponId>, test: seq<CouponId>,
                         purchases: seq<Purchase>, visits: seq<Visit>)
    requires NoDup(train + test)
    ensures var tif := TestItemFrame(ItemFrameOf(users, train, test), test);
      TestSet(users, train, test, purchases, visits)
        == CrossJoin(UserFrame(users), tif, TestCell(RatedOf(users, train, test, purchases, visits)))
      && |tif| == |test|
      && forall j :: 0 <= j < |test| ==> tif[j].couponId == test[j] && tif[j].itemIndex == LibfmNotation(|users| + |train| + j)
    ensures |TestSet(users, train, test, purchases, visits)| == |users| * |test|
  {
    var uf := UserFrame(users);
    var itf := ItemFrameOf(users, train, test);
    var tif := TestItemFrame(itf, test);
    var rated := RatedOf(users, train, test, purchases, visits);
    RatedKeysUnique(KnownVisits(visits, CouponFrame(train, test)), train, purchases, itf);
    CrossJoinLookup(uf, tif, Candidate, rated, RowUser, EntryKey, WithFeatures, Sentinel, TestCell(rated));
    TestItemsAreSuffix(users, train, test);
    ItemFrameIndices(users, train, test);
    forall j | 0 <= j < |test| ensures tif[j].couponId == test[j] && tif[j].itemIndex == LibfmNotation(|users| + |train| + j) {
      TestItemAt(users, train, test, j);
    }
  }

  /** Row `k = i * |test| + j` of the test set is user i with test coupon j,
      target -1.0, and the user's similar-item list or the empty list. */
  lemma TestRowAt(users: seq<UserId>, train: seq<CouponId>, test: seq<CouponId>,
                  purchases: seq<Purchase>, visits: seq<Visit>, i: nat, j: nat, k: nat)
    requires NoDup(train + test) && i < |users| && j < |test| && k == i * |test| + j
    ensures var rows := TestSet(users, train, test, purchases, visits);
      var rated := RatedOf(users, train, test, purchases, visits);
      k < |rows|
      && rows[k] == Row(users[i], test[j], Some(Literal(-1.0)), Some(LibfmNotation(i)),
                        Some(LibfmNotation(|users| + |train| + j)),
                        Some(match FeaturesOf(rated, users[i]) case None => [] case Some(f) => f))
  {
    var rated := RatedOf(users, train, test, purchases, visits);
    var tif := TestItemFrame(ItemFrameOf(users, train, test), test);
    TestExamplesSpec(users, train, test, purchases, visits);
    UserFrameIndices(users);
    CrossJoinAt(UserFrame(users), tif, TestCell(rated), i, j);
  }
}
