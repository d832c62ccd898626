/** The flattening of the taxonomy into one record per leaf activity
    (the `activities` memo of the page). The specification functions below
    consume their sequence from the end, as the push loops build it. */
module Taxonomy {
  import opened Definitions

  /** The record pushed for one leaf, copying its own fields and its ancestors' names and codes:
      the leaf can be rebuilt from the record, and so can each ancestor's name and code. */
  function Record(ind: Industry, cat: Category, sub: SubCategory, act: Activity): (r: FlatActivity)
    ensures Activity(r.activityCode, r.activity, r.trade) == act
    ensures (r.industryCode, r.industry) == (ind.industryCode, ind.industryName)
    ensures (r.categoryCode, r.category) == (cat.businessCategoryCode, cat.businessCategoryName)
    ensures (r.subCategoryCode, r.subCategory) == (sub.subCategoryCode, sub.subCategoryName)
  {
    FlatActivity(
      activity := act.name,
      activityCode := act.code,
      industry := ind.industryName,
      industryCode := ind.industryCode,
      category := cat.businessCategoryName,
      categoryCode := cat.businessCategoryCode,
      subCategory := sub.subCategoryName,
      subCategoryCode := sub.subCategoryCode,
      trade := act.trade)
  }

  /** The records of the activities `acts` of subcategory `sub`, in order. */
  function ActivityRecords(ind: Industry, cat: Category, sub: SubCategory, acts: seq<Activity>): seq<FlatActivity>
    decreases |acts|
  {
    if acts == [] then []
    else ActivityRecords(ind, cat, sub, acts[..|acts| - 1]) + [Record(ind, cat, sub, acts[|acts| - 1])]
  }

  /** The records of the subcategories `subs` of category `cat`, subcategory after subcategory. */
  function SubCategoryRecords(ind: Industry, cat: Category, subs: seq<SubCategory>): seq<FlatActivity>
    decreases |subs|
  {
    if subs == [] then []
    else
      var last := subs[|subs| - 1];
      SubCategoryRecords(ind, cat, subs[..|subs| - 1]) + ActivityRecords(ind, cat, last, last.activities)
  }

  /** The records of the categories `cats` of industry `ind`, category after category. */
  function CategoryRecords(ind: Industry, cats: seq<Category>): seq<FlatActivity>
    decreases |cats|
  {
    if cats == [] then []
    else
      var last := cats[|cats| - 1];
      CategoryRecords(ind, cats[..|cats| - 1]) + SubCategoryRecords(ind, last, last.businessSubCategories)
  }

  /** The flattened taxonomy: each industry's records, in industry order. */
  function Flatten(data: seq<Industry>): seq<FlatActivity>
    decreases |data|
  {
    if data == [] then []
    else
      var last := data[|data| - 1];
      Flatten(data[..|data| - 1]) + CategoryRecords(last, last.businesses)
  }

  // ---- leaf counts ----

  /** The number of leaf activities under the subcategories `subs`. */
  function SubCategoryLeaves(subs: seq<SubCategory>): nat
    decreases |subs|
  {
    if subs == [] then 0
    else SubCategoryLeaves(subs[..|subs| - 1]) + |subs[|subs| - 1].activities|
  }

  /** The number of leaf activities under the categories `cats`. */
  function CategoryLeaves(cats: seq<Category>): nat
    decreases |cats|
  {
    if cats == [] then 0
    else CategoryLeaves(cats[..|cats| - 1]) + SubCategoryLeaves(cats[|cats| - 1].businessSubCategories)
  }

  /** The number of leaf activities in the whole taxonomy. */
  function LeafCount(data: seq<Industry>): nat
    decreases |data|
  {
    if data == [] then 0
    else LeafCount(data[..|data| - 1]) + CategoryLeaves(data[|data| - 1].businesses)
  }

  // ---- one record per leaf ----

  lemma {:induction false} ActivityRecordsLength(ind: Industry, cat: Category, sub: SubCategory, acts: seq<Activity>)
    ensures |ActivityRecords(ind, cat, sub, acts)| == |acts|
    decreases |acts|
  {
    if acts != [] {
      ActivityRecordsLength(ind, cat, sub, acts[..|acts| - 1]);
    }
  }

  lemma {:induction false} SubCategoryRecordsLength(ind: Industry, cat: Category, subs: seq<SubCategory>)
    ensures |SubCategoryRecords(ind, cat, subs)| == SubCategoryLeaves(subs)
    decreases |subs|
  {
    if subs != [] {
      var last := subs[|subs| - 1];
      SubCategoryRecordsLength(ind, cat, subs[..|subs| - 1]);
      ActivityRecordsLength(ind, cat, last, last.activities);
    }
  }

  lemma {:induction false} CategoryRecordsLength(ind: Industry, cats: seq<Category>)
    ensures |CategoryRecords(ind, cats)| == CategoryLeaves(cats)
    decreases |cats|
  {
    if cats != [] {
      var last := cats[|cats| - 1];
      CategoryRecordsLength(ind, cats[..|cats| - 1]);
      SubCategoryRecordsLength(ind, last, last.businessSubCategories);
    }
  }

  /** Flattening yields exactly one record per leaf activity. */
  lemma {:induction false} FlattenLength(data: seq<Industry>)
    ensures |Flatten(data)| == LeafCount(data)
    decreases |data|
  {
    if data != [] {
      var last := data[|data| - 1];
      FlattenLength(data[..|data| - 1]);
      CategoryRecordsLength(last, last.businesses);
    }
  }

  // ---- order ----

  /** Within a subcategory, the k-th record is the copy of the k-th activity. */
  lemma {:induction false} ActivityRecordsAt(ind: Industry, cat: Category, sub: SubCategory, acts: seq<Activity>, k: nat)
    requires k < |acts|
    ensures |ActivityRecords(ind, cat, sub, acts)| == |acts|
    ensures ActivityRecords(ind, cat, sub, acts)[k] == Record(ind, cat, sub, acts[k])
    decreases |acts|
  {
    var init := acts[..|acts| - 1];
    ActivityRecordsLength(ind, cat, sub, init);
    if k < |acts| - 1 {
      ActivityRecordsAt(ind, cat, sub, init, k);
    }
  }

  /** Flattening distributes over concatenation of taxonomies: the output is
      the flattening of the first industries followed by that of the rest. */
  lemma {:induction false} FlattenAppend(a: seq<Industry>, b: seq<Industry>)
    ensures Flatten(a + b) == Flatten(a) + Flatten(b)
    decreases |b|
  {
    if b == [] {
      assert a + b == a;
    } else {
      var init := b[..|b| - 1];
      assert (a + b)[..|a + b| - 1] == a + init;
      assert (a + b)[|a + b| - 1] == b[|b| - 1];
      FlattenAppend(a, init);
    }
  }

  /** The flattening of a single industry is its category records. */
  lemma FlattenSingle(ind: Industry)
    ensures Flatten([ind]) == CategoryRecords(ind, ind.businesses)
  {
    assert [ind][..0] == [];
  }

  // ---- every record is a leaf's copy, and every leaf is copied ----

  lemma {:induction false} ActivityRecordsMember(ind: Industry, cat: Category, sub: SubCategory, acts: seq<Activity>, r: FlatActivity)
    ensures r in ActivityRecords(ind, cat, sub, acts) <==> exists a :: a in acts && r == Record(ind, cat, sub, a)
    decreases |acts|
  {
    if acts != [] {
      var init, last := acts[..|acts| - 1], acts[|acts| - 1];
      assert acts == init + [last];
      ActivityRecordsMember(ind, cat, sub, init, r);
      if exists a :: a in acts && r == Record(ind, cat, sub, a) {
        var a :| a in acts && r == Record(ind, cat, sub, a);
        if a != last {
          assert a in init;
        }
      }
    }
  }

  lemma {:induction false} SubCategoryRecordsMember(ind: Industry, cat: Category, subs: seq<SubCategory>, r: FlatActivity)
    ensures r in SubCategoryRecords(ind, cat, subs) <==>
            exists s, a :: s in subs && a in s.activities && r == Record(ind, cat, s, a)
    decreases |subs|
  {
    if subs != [] {
      var init, last := subs[..|subs| - 1], subs[|subs| - 1];
      assert subs == init + [last];
      SubCategoryRecordsMember(ind, cat, init, r);
      ActivityRecordsMember(ind, cat, last, last.activities, r);
      if r in SubCategoryRecords(ind, cat, subs) {
        if r in SubCategoryRecords(ind, cat, init) {
          var s, a :| s in init && a in s.activities && r == Record(ind, cat, s, a);
          assert s in subs;
        } else {
          var a :| a in last.activities && r == Record(ind, cat, last, a);
          assert last in subs;
        }
      }
      if exists s, a :: s in subs && a in s.activities && r == Record(ind, cat, s, a) {
        var s, a :| s in subs && a in s.activities && r == Record(ind, cat, s, a);
        if s != last {
          assert s in init;
        }
      }
    }
  }

  lemma {:induction false} CategoryRecordsMember(ind: Industry, cats: seq<Category>, r: FlatActivity)
    ensures r in CategoryRecords(ind, cats) <==>
            exists c, s, a :: c in cats && s in c.businessSubCategories && a in s.activities && r == Record(ind, c, s, a)
    decreases |cats|
  {
    if cats != [] {
      var init, last := cats[..|cats| - 1], cats[|cats| - 1];
      assert cats == init + [last];
      CategoryRecordsMember(ind, init, r);
      SubCategoryRecordsMember(ind, last, last.businessSubCategories, r);
      if r in CategoryRecords(ind, cats) {
        if r in CategoryRecords(ind, init) {
          var c, s, a :| c in init && s in c.businessSubCategories && a in s.activities && r == Record(ind, c, s, a);
          assert c in cats;
        } else {
          var s, a :| s in last.businessSubCategories && a in s.activities && r == Record(ind, last, s, a);
          assert last in cats;
        }
      }
      if exists c, s, a :: c in cats && s in c.businessSubCategories && a in s.activities && r == Record(ind, c, s, a) {
        var c, s, a :| c in cats && s in c.businessSubCategories && a in s.activities && r == Record(ind, c, s, a);
        if c != last {
          assert c in init;
        }
      }
    }
  }

  /** A record is in the flattened list exactly when it is the copy of some
      leaf activity, made with that leaf's own industry, category and subcategory. */
  lemma {:induction false} FlattenMember(data: seq<Industry>, r: FlatActivity)
    ensures r in Flatten(data) <==>
            exists i, c, s, a :: i in data && c in i.businesses && s in c.businessSubCategories && a in s.activities &&
                                 r == Record(i, c, s, a)
    decreases |data|
  {
    if data != [] {
      var init, last := data[..|data| - 1], data[|data| - 1];
      assert data == init + [last];
      FlattenMember(init, r);
      CategoryRecordsMember(last, last.businesses, r);
      if r in Flatten(data) {
        if r in Flatten(init) {
          var i, c, s, a :| i in init && c in i.businesses && s in c.businessSubCategories && a in s.activities &&
                             r == Record(i, c, s, a);
          assert i in data;
        } else {
          var c, s, a :| c in last.businesses && s in c.businessSubCategories && a in s.activities &&
                          r == Record(last, c, s, a);
          assert last in data;
        }
      }
      if exists i, c, s, a :: i in data && c in i.businesses && s in c.businessSubCategories && a in s.activities &&
                              r == Record(i, c, s, a) {
        var i, c, s, a :| i in data && c in i.businesses && s in c.businessSubCategories && a in s.activities &&
                           r == Record(i, c, s, a);
        if i != last {
          assert i in init;
        }
      }
    }
  }

  // ---- the loops that build the list ----
  // One method per `forEach` callback: each appends the records of its level to `flat`.

  /** The innermost loop: push one record per activity of `sub`. */
  method PushActivities(flat: seq<FlatActivity>, ind: Industry, cat: Category, sub: SubCategory)
    returns (flat': seq<FlatActivity>)
    ensures flat' == flat + ActivityRecords(ind, cat, sub, sub.activities)
  {
    flat' := flat;
    var l := 0;
    while l < |sub.activities|
      invariant 0 <= l <= |sub.activities|
      invariant flat' == flat + ActivityRecords(ind, cat, sub, sub.activities[..l])
    {
      flat' := flat' + [Record(ind, cat, sub, sub.activities[l])];
      assert sub.activities[..l + 1][..l] == sub.activities[..l];
      l := l + 1;
    }
    assert sub.activities[..l] == sub.activities;
  }

  /** The subcategory loop of one category. */
  method PushSubCategories(flat: seq<FlatActivity>, ind: Industry, cat: Category)
    returns (flat': seq<FlatActivity>)
    ensures flat' == flat + SubCategoryRecords(ind, cat, cat.businessSubCategories)
  {
    flat' := flat;
    var k := 0;
    while k < |cat.businessSubCategories|
      invariant 0 <= k <= |cat.businessSubCategories|
      invariant flat' == flat + SubCategoryRecords(ind, cat, cat.businessSubCategories[..k])
    {
      flat' := PushActivities(flat', ind, cat, cat.businessSubCategories[k]);
      assert cat.businessSubCategories[..k + 1][..k] == cat.businessSubCategories[..k];
      k := k + 1;
    }
    assert cat.businessSubCategories[..k] == cat.businessSubCategories;
  }

  /** The category loop of one industry. */
  method PushCategories(flat: seq<FlatActivity>, ind: Industry) returns (flat': seq<FlatActivity>)
    ensures flat' == flat + CategoryRecords(ind, ind.businesses)
  {
    flat' := flat;
    var j := 0;
    while j < |ind.businesses|
      invariant 0 <= j <= |ind.businesses|
      invariant flat' == flat + CategoryRecords(ind, ind.businesses[..j])
    {
      flat' := PushSubCategories(flat', ind, ind.businesses[j]);
      assert ind.businesses[..j + 1][..j] == ind.businesses[..j];
      j := j + 1;
    }
    assert ind.businesses[..j] == ind.businesses;
  }

  /** The `activities` memo: walk the industries, starting from an empty list. */
  method FlattenTaxonomy(data: seq<Industry>) returns (flatActivities: seq<FlatActivity>)
    ensures flatActivities == Flatten(data)
  {
    flatActivities := [];
    var i := 0;
    while i < |data|
      invariant 0 <= i <= |data|
      invariant flatActivities == Flatten(data[..i])
    {
      flatActivities := PushCategories(flatActivities, data[i]);
      assert data[..i + 1][..i] == data[..i];
      i := i + 1;
    }
    assert data[..i] == data;
  }
}
