/** The `LibfmLoader` object: its inputs and derived counts are fixed by the
    constructor, and the two conversion steps fill in the index tables, the
    similar-item table and the training and test sets. */
module Loader {
  import opened Tables
  import opened Pipeline
  import Properties

  class LibfmLoader {
    const users: seq<UserId>
    const couponsTrain: seq<CouponId>
    const couponsTest: seq<CouponId>
    const purchases: seq<Purchase>
    /** `self.coupons`: train then test coupons, tagged and re-indexed. */
    const coupons: seq<CouponRow>
    /** The visits as given to the constructor, before filtering. */
    ghost const givenVisits: seq<Visit>
    /** `self.visits`: only the visits to a known coupon. */
    const visits: seq<Visit>
    const numUsers: nat
    const numTrainItems: nat
    const numTestItems: nat
    const numItems: nat

    var userDf: Option<seq<UserEntry>>
    var itemDf: Option<seq<ItemEntry>>
    var rated: Option<seq<SimilEntry>>
    var result: Option<seq<Row>>
    var resultTest: Option<seq<Row>>

    /** The fixed fields agree with the inputs. */
    ghost predicate Valid()
      reads this
    {
      && coupons == CouponFrame(couponsTrain, couponsTest)
      && visits == KnownVisits(givenVisits, coupons)
      && numUsers == |users|
      && numTrainItems == |couponsTrain|
      && numTestItems == |couponsTest|
      && numItems == numTrainItems + numTestItems
    }

    /** The tables `_convert_train` leaves behind are in place. */
    ghost predicate Trained()
      reads this
    {
      && userDf == Some(UserFrame(users))
      && itemDf == Some(ItemFrameOf(users, couponsTrain, couponsTest))
      && rated == Some(RatedOf(users, couponsTrain, couponsTest, purchases, givenVisits))
    }

    /** `__init__`; `resetIndex` is accepted and not used, as in the source. */
    constructor (users: seq<UserId>, couponsTrain: seq<CouponId>, couponsTest: seq<CouponId>,
                 purchases: seq<Purchase>, visits: seq<Visit>, resetIndex: bool)
      ensures Valid()
      ensures this.users == users && this.couponsTrain == couponsTrain && this.couponsTest == couponsTest
      ensures this.purchases == purchases && givenVisits == visits
      ensures numItems == |couponsTrain| + |couponsTest|
      ensures forall v :: v in this.visits <==> v in visits && v.viewCoupon in couponsTrain + couponsTest
      ensures userDf == None && itemDf == None && rated == None && result == None && resultTest == None
    {
      this.users := users;
      this.couponsTrain := couponsTrain;
      this.couponsTest := couponsTest;
      this.purchases := purchases;
      var cf := CouponFrame(couponsTrain, couponsTest);
      coupons := cf;
      givenVisits := visits;
      this.visits := KnownVisits(visits, cf);
      numUsers := |users|;
      numTrainItems := |couponsTrain|;
      numTestItems := |couponsTest|;
      numItems := |couponsTrain| + |couponsTest|;
      userDf := None;
      itemDf := None;
      rated := None;
      result := None;
      resultTest := None;
      new;
      assert Project(cf, CouponIdOf) == couponsTrain + couponsTest by {
        Properties.CouponFrameOrder(couponsTrain, couponsTest);
      }
    }

    /** The first part of `_convert_train`: `user_df`, `item_df` and `rated`,
        built from the fixed fields. */
    method BuildTables()
      requires Valid()
      modifies this
      ensures Valid() && Trained()
      ensures result == old(result) && resultTest == old(resultTest)
    {
      var u := UserFrame(users);
      var items := ItemFrame(coupons, numUsers, numItems);
      var r := SimilarItems(visits, couponsTrain, purchases, items);
      userDf := Some(u);
      itemDf := Some(items);
      rated := Some(r);
    }

    /** `_convert_train`, with the purchase probabilities passed in as
        `estimates`: the index tables, then the positive and negative examples. */
    method ConvertTrain(estimates: seq<Estimate>)
      requires Valid()
      modifies this
      ensures Valid() && Trained()
      ensures result == Some(TrainingSet(users, couponsTrain, couponsTest, purchases, givenVisits, estimates))
      ensures resultTest == old(resultTest)
    {
      BuildTables();
      var positives := PositiveExamples(purchases, userDf.value, itemDf.value, rated.value);
      var negatives := NegativeExamples(visits, userDf.value, itemDf.value, rated.value, estimates, couponsTest);
      result := Some(positives + negatives);
    }

    /** `_convert_test`: needs the tables `_convert_train` leaves behind. */
    method ConvertTest()
      requires Valid() && Trained()
      modifies this
      ensures Valid() && Trained()
      ensures userDf == old(userDf) && itemDf == old(itemDf) && rated == old(rated) && result == old(result)
      ensures resultTest == Some(TestSet(users, couponsTrain, couponsTest, purchases, givenVisits))
    {
      resultTest := Some(TestExamples(userDf.value, itemDf.value, couponsTest, rated.value));
    }

    /** `convert`: the training conversion, then the test conversion. */
    method Convert(estimates: seq<Estimate>)
      requires Valid()
      modifies this
      ensures Valid() && Trained()
      ensures result == Some(TrainingSet(users, couponsTrain, couponsTest, purchases, givenVisits, estimates))
      ensures resultTest == Some(TestSet(users, couponsTrain, couponsTest, purchases, givenVisits))
    {
      ConvertTrain(estimates);
      ConvertTest();
    }
  }
}
