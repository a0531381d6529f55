/** The table steps of `LibfmLoader._convert_train` and `_convert_test`,
    each a pure function from the tables it reads to the table it builds.
    Tables are sequences of records holding only the columns the loader
    uses; a DataFrame cell left empty by a left merge (NaN) is `None`.

    Floating-point values are kept symbolic: `InvSqrt(k)` stands for
    `1.0 / math.sqrt(k)` and `CubeRoot(s)` for `s ** (1/3.)`. */
module Pipeline {
  import opened Tables
  import opened Notation

  type UserId = string
  type CouponId = string

  /** A purchase row: `USER_ID_hash`, `COUPON_ID_hash`. */
  datatype Purchase = Purchase(user: UserId, coupon: CouponId)

  /** A visit-log row: `USER_ID_hash`, `VIEW_COUPON_ID_hash`, `PURCHASE_FLG`. */
  datatype Visit = Visit(user: UserId, viewCoupon: CouponId, purchaseFlag: int)

  /** A row of the purchase-probability table: `USER_ID_hash`, `PROB_PURCHASE`. */
  datatype Estimate = Estimate(user: UserId, probPurchase: real)

  /** The `type` column of the combined coupon table. */
  datatype Kind = Train | Test

  /** A row of `self.coupons`: the `index` column, the id and the `type`. */
  datatype CouponRow = CouponRow(index: nat, couponId: CouponId, kind: Kind)

  /** A row of `user_df`: `user_index` (an indicator token) and the user id. */
  datatype UserEntry = UserEntry(userIndex: string, userId: UserId)

  /** A row of `item_df`: `item_index` (an indicator token), the id and the integer `simil_item_index`. */
  datatype ItemEntry = ItemEntry(itemIndex: string, couponId: CouponId, similItemIndex: nat)

  /** A (user, coupon) pair, the projection used before every de-duplication. */
  datatype Pair = Pair(user: UserId, coupon: CouponId)

  /** The float `1.0 / math.sqrt(count)`. */
  datatype Weight = InvSqrt(count: nat)

  /** One `"{slot}:{weight}"` token of a similar-item list; the slot is None
      when the coupon had no row in `item_df`. */
  datatype SimilToken = SimilToken(slot: Option<nat>, weight: Weight)

  /** A row of `rated` between the item merge and the group-by. */
  datatype SlotRow = SlotRow(userId: UserId, slot: Option<nat>)

  /** A row of `rated` after the group-by: a user and its space-joined token list. */
  datatype SimilEntry = SimilEntry(userId: UserId, features: seq<SimilToken>)

  /** A target value: a literal float, or the cube root of another value. */
  datatype Score = Literal(value: real) | CubeRoot(base: Score)

  /** An example row: `USER_ID_hash`, `COUPON_ID_hash`, `target`, `user_index`,
      `item_index`, `simil_item_index`. */
  datatype Row = Row(userId: UserId, couponId: CouponId, target: Option<Score>,
                     userIndex: Option<string>, itemIndex: Option<string>,
                     similItemIndex: Option<seq<SimilToken>>)

  // Join keys and masks.

  function CouponIdOf(c: CouponRow): CouponId { c.couponId }
  function UserKey(e: UserEntry): UserId { e.userId }
  function ItemKey(e: ItemEntry): CouponId { e.couponId }
  function EntryKey(e: SimilEntry): UserId { e.userId }
  function EstimateKey(e: Estimate): UserId { e.user }
  function PairUser(p: Pair): UserId { p.user }
  function PairCoupon(p: Pair): CouponId { p.coupon }
  function SlotUser(r: SlotRow): UserId { r.userId }
  function RowUser(r: Row): UserId { r.userId }
  function RowCoupon(r: Row): CouponId { r.couponId }

  /** `visits.VIEW_COUPON_ID_hash.isin(ids)` */
  function ViewsOneOf(ids: seq<CouponId>): Visit -> bool {
    (v: Visit) => v.viewCoupon in ids
  }

  /** `item_df.COUPON_ID_hash.isin(ids)` */
  function ListedIn(ids: seq<CouponId>): ItemEntry -> bool {
    (e: ItemEntry) => e.couponId in ids
  }

  /** `PURCHASE_FLG == 0` */
  function Unpurchased(v: Visit): bool { v.purchaseFlag == 0 }

  // Index assignment.

  /** `self.coupons`: train rows tagged "train", then test rows tagged
      "test", renumbered from 0 by the two `reset_index` calls. */
  function CouponFrame(train: seq<CouponId>, test: seq<CouponId>): seq<CouponRow> {
    var tagged := Project(train, (c: CouponId) => (c, Train)) + Project(test, (c: CouponId) => (c, Test));
    seq(|tagged|, i requires 0 <= i < |tagged| => CouponRow(i, tagged[i].0, tagged[i].1))
  }

  /** `self.visits`: the visits to a coupon of the combined coupon table. */
  function KnownVisits(visits: seq<Visit>, coupons: seq<CouponRow>): seq<Visit> {
    Select(visits, ViewsOneOf(Project(coupons, CouponIdOf)))
  }

  /** `user_df`: the row position of each user, as an indicator token. */
  function UserFrame(users: seq<UserId>): seq<UserEntry> {
    seq(|users|, i requires 0 <= i < |users| => UserEntry(LibfmNotation(i), users[i]))
  }

  /** `item_df`: a coupon's position shifted by the number of users, as an
      indicator token, and the similar-item slot a further `numItems` on. */
  function ItemFrame(coupons: seq<CouponRow>, numUsers: nat, numItems: nat): seq<ItemEntry> {
    seq(|coupons|, i requires 0 <= i < |coupons| =>
      var itemIndex := coupons[i].index + numUsers;
      ItemEntry(LibfmNotation(itemIndex), coupons[i].couponId, itemIndex + numItems))
  }

  // Merging the index columns into a table of pairs.

  function NewRow(p: Pair): Row { Row(p.user, p.coupon, None, None, None, None) }

  function UserIndexIn(m: Option<UserEntry>): Option<string> {
    match m case None => None case Some(e) => Some(e.userIndex)
  }

  function ItemIndexIn(m: Option<ItemEntry>): Option<string> {
    match m case None => None case Some(e) => Some(e.itemIndex)
  }

  function SlotIn(m: Option<ItemEntry>): Option<nat> {
    match m case None => None case Some(e) => Some(e.similItemIndex)
  }

  function FeaturesIn(m: Option<SimilEntry>): Option<seq<SimilToken>> {
    match m case None => None case Some(e) => Some(e.features)
  }

  function ProbabilityIn(m: Option<Estimate>): Option<Score> {
    match m case None => None case Some(e) => Some(Literal(e.probPurchase))
  }

  function WithUser(r: Row, m: Option<UserEntry>): Row { r.(userIndex := UserIndexIn(m)) }
  function WithItem(r: Row, m: Option<ItemEntry>): Row { r.(itemIndex := ItemIndexIn(m)) }
  function WithFeatures(r: Row, m: Option<SimilEntry>): Row { r.(similItemIndex := FeaturesIn(m)) }
  function WithProbability(r: Row, m: Option<Estimate>): Row { r.(target := ProbabilityIn(m)) }

  /** Left merges with `user_df` on the user id and `item_df` on the coupon id. */
  function JoinIndices(pairs: seq<Pair>, userDf: seq<UserEntry>, itemDf: seq<ItemEntry>): seq<Row> {
    LeftJoin(LeftJoin(Project(pairs, NewRow), userDf, RowUser, UserKey, WithUser),
             itemDf, RowCoupon, ItemKey, WithItem)
  }

  /** Left merge with `rated` on the user id. */
  function JoinFeatures(rows: seq<Row>, rated: seq<SimilEntry>): seq<Row> {
    LeftJoin(rows, rated, RowUser, EntryKey, WithFeatures)
  }

  // Similar-item lists.

  function PurchasePair(p: Purchase): Pair { Pair(p.user, p.coupon) }
  function VisitPair(v: Visit): Pair { Pair(v.user, v.viewCoupon) }

  /** Views of train coupons followed by all purchases, before de-duplication. */
  function RatedSource(visits: seq<Visit>, train: seq<CouponId>, purchases: seq<Purchase>): seq<Pair> {
    Project(Select(visits, ViewsOneOf(train)), VisitPair) + Project(purchases, PurchasePair)
  }

  function RatedPairs(visits: seq<Visit>, train: seq<CouponId>, purchases: seq<Purchase>): seq<Pair> {
    Distinct(RatedSource(visits, train, purchases))
  }

  function WithSlot(p: Pair, m: Option<ItemEntry>): SlotRow { SlotRow(p.user, SlotIn(m)) }

  /** The aggregate of one user's group: a token per row, each weighted by
      the group's size. */
  function Aggregate(u: UserId, group: seq<SlotRow>): SimilEntry {
    SimilEntry(u, seq(|group|, j requires 0 <= j < |group| => SimilToken(group[j].slot, InvSqrt(|group|))))
  }

  /** `rated`: one entry per user with at least one distinct viewed train
      coupon or purchased coupon. */
  function SimilarItems(visits: seq<Visit>, train: seq<CouponId>, purchases: seq<Purchase>,
                        itemDf: seq<ItemEntry>): seq<SimilEntry>
  {
    GroupBy(LeftJoin(RatedPairs(visits, train, purchases), itemDf, PairCoupon, ItemKey, WithSlot),
            SlotUser, Aggregate)
  }

  // Positive examples.

  function PositivePairs(purchases: seq<Purchase>): seq<Pair> {
    Distinct(Project(purchases, PurchasePair))
  }

  function Positive(r: Row): Row { r.(target := Some(Literal(1.0))) }

  /** `plhold`: the distinct purchase pairs with their indices and
      similar-item list, target 1.0. */
  function PositiveExamples(purchases: seq<Purchase>, userDf: seq<UserEntry>, itemDf: seq<ItemEntry>,
                            rated: seq<SimilEntry>): seq<Row>
  {
    Project(JoinFeatures(JoinIndices(PositivePairs(purchases), userDf, itemDf), rated), Positive)
  }

  // Negative examples.

  function NegativePairs(visits: seq<Visit>): seq<Pair> {
    Distinct(Project(Select(visits, Unpurchased), VisitPair))
  }

  function CubeRootOf(t: Option<Score>): Option<Score> {
    match t case None => None case Some(s) => Some(CubeRoot(s))
  }

  /** The `.loc` assignment: rows on a test coupon get the cube root of their target. */
  function BoostTestCoupon(testIds: seq<CouponId>, r: Row): Row {
    if r.couponId in testIds then r.(target := CubeRootOf(r.target)) else r
  }

  /** `unpvis`: the distinct unpurchased visit pairs with their indices,
      similar-item list and the user's purchase probability as target. */
  function NegativeExamples(visits: seq<Visit>, userDf: seq<UserEntry>, itemDf: seq<ItemEntry>,
                            rated: seq<SimilEntry>, estimates: seq<Estimate>, testIds: seq<CouponId>): seq<Row>
  {
    var rows := LeftJoin(JoinFeatures(JoinIndices(NegativePairs(visits), userDf, itemDf), rated),
                         estimates, RowUser, EstimateKey, WithProbability);
    Project(rows, (r: Row) => BoostTestCoupon(testIds, r))
  }

  // Test examples.

  function TestItemFrame(itemDf: seq<ItemEntry>, testIds: seq<CouponId>): seq<ItemEntry> {
    Select(itemDf, ListedIn(testIds))
  }

  function Candidate(u: UserEntry, e: ItemEntry): Row {
    Row(u.userId, e.couponId, None, Some(u.userIndex), Some(e.itemIndex), None)
  }

  /** Target -1.0, and `fillna("")` on the similar-item column. */
  function Sentinel(r: Row): Row {
    r.(target := Some(Literal(-1.0)),
       similItemIndex := if r.similItemIndex.None? then Some([]) else r.similItemIndex)
  }

  /** `testrset`: every user with every test coupon, with similar-item lists. */
  function TestExamples(userDf: seq<UserEntry>, itemDf: seq<ItemEntry>, testIds: seq<CouponId>,
                        rated: seq<SimilEntry>): seq<Row>
  {
    Project(JoinFeatures(CrossJoin(userDf, TestItemFrame(itemDf, testIds), Candidate), rated), Sentinel)
  }

  // The whole conversion, from the loader's inputs.

  function ItemFrameOf(users: seq<UserId>, train: seq<CouponId>, test: seq<CouponId>): seq<ItemEntry> {
    ItemFrame(CouponFrame(train, test), |users|, |train| + |test|)
  }

  function RatedOf(users: seq<UserId>, train: seq<CouponId>, test: seq<CouponId>,
                   purchases: seq<Purchase>, visits: seq<Visit>): seq<SimilEntry>
  {
    SimilarItems(KnownVisits(visits, CouponFrame(train, test)), train, purchases, ItemFrameOf(users, train, test))
  }

  /** `self.result`: the positive examples followed by the negative ones. */
  function TrainingSet(users: seq<UserId>, train: seq<CouponId>, test: seq<CouponId>,
                       purchases: seq<Purchase>, visits: seq<Visit>, estimates: seq<Estimate>): seq<Row>
  {
    var userDf := UserFrame(users);
    var itemDf := ItemFrameOf(users, train, test);
    var rated := RatedOf(users, train, test, purchases, visits);
    PositiveExamples(purchases, userDf, itemDf, rated)
      + NegativeExamples(KnownVisits(visits, CouponFrame(train, test)), userDf, itemDf, rated, estimates, test)
  }

  /** `self.result_test`. */
  function TestSet(users: seq<UserId>, train: seq<CouponId>, test: seq<CouponId>,
                   purchases: seq<Purchase>, visits: seq<Visit>): seq<Row>
  {
    TestExamples(UserFrame(users), ItemFrameOf(users, train, test), test, RatedOf(users, train, test, purchases, visits))
  }
}
