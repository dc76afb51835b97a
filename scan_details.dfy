/**
 * The scan details page: the PII items of one scan grouped by their type
 * key, one card per group with its colours, icon, label, item count and
 * total occurrence count. Fetching the items and formatting the date are
 * not modelled.
 */
module ScanDetails {
  import opened Common
  import Dashboard

  /** One PII item of a scan: its type key and optional occurrence count. */
  datatype ScanPii = ScanPii(piiType: string, occurrences: Option<int>)

  // ---------------------------------------------------------------------
  // PII_ASSETS_BY_TYPE
  // ---------------------------------------------------------------------

  datatype Icon = CreditCardIcon | ShieldIcon | PaperclipIcon | BanknoteIcon
                | AlertTriangleIcon | MapPinIcon | PhoneIcon | MailIcon

  /** The colour family of a card; each family has one background and one border class. */
  datatype Tone = Red | Orange | Yellow | Green

  datatype Assets = Assets(tone: Tone, icon: Icon)

  const AssetsByType: map<string, Assets> := map[
    "credit_card" := Assets(Red, CreditCardIcon),
    "social_security" := Assets(Red, ShieldIcon),
    "passport" := Assets(Red, PaperclipIcon),
    "iban" := Assets(Orange, BanknoteIcon),
    "bank_account" := Assets(Orange, BanknoteIcon),
    "driving_license" := Assets(Orange, PaperclipIcon),
    "medical_info" := Assets(Yellow, AlertTriangleIcon),
    "address" := Assets(Green, MapPinIcon),
    "coordinates" := Assets(Green, MapPinIcon),
    "financial_info" := Assets(Green, BanknoteIcon),
    "phone" := Assets(Green, PhoneIcon),
    "sensitive_location" := Assets(Green, MapPinIcon),
    "email" := Assets(Green, MailIcon),
    "birth_date" := Assets(Green, MapPinIcon),
    "personal_info" := Assets(Green, MapPinIcon),
    "full_name" := Assets(Green, MapPinIcon),
    "sensitive_keyword" := Assets(Green, MapPinIcon),
    "ip_address" := Assets(Green, MapPinIcon),
    "mac_address" := Assets(Green, MapPinIcon)
  ]

  function ToneBackground(t: Tone): string {
    match t
    case Red => "bg-red-50 dark:bg-red-900/20"
    case Orange => "bg-orange-50 dark:bg-orange-900/20"
    case Yellow => "bg-yellow-50 dark:bg-yellow-900/20"
    case Green => "bg-green-50 dark:bg-green-900/20"
  }

  function ToneBorder(t: Tone): string {
    match t
    case Red => "border-l-4 border-l-red-500"
    case Orange => "border-l-4 border-l-orange-500"
    case Yellow => "border-l-4 border-l-yellow-500"
    case Green => "border-l-4 border-l-green-500"
  }

  const FallbackBackground: string := "bg-gray-50 dark:bg-gray-900/20"
  const FallbackBorder: string := "border-l-4 border-l-gray-500"

  /** `PII_ASSETS_BY_TYPE[piiType]?.[1]`: no icon for an unknown type. */
  function IconOf(piiType: string): Option<Icon> {
    if piiType in AssetsByType then Some(AssetsByType[piiType].icon) else None
  }

  /** `PII_ASSETS_BY_TYPE[piiType]?.[0] || <gray>` */
  function Background(piiType: string): string {
    if piiType in AssetsByType then ToneBackground(AssetsByType[piiType].tone) else FallbackBackground
  }

  /** `PII_ASSETS_BY_TYPE[piiType]?.[2] || <gray>` */
  function Border(piiType: string): string {
    if piiType in AssetsByType then ToneBorder(AssetsByType[piiType].tone) else FallbackBorder
  }

  /** An unknown type gets no icon and the gray colours; a known type an icon and never gray. */
  lemma AssetsFallback(piiType: string)
    ensures piiType !in AssetsByType <==> IconOf(piiType) == None
    ensures piiType !in AssetsByType <==> Background(piiType) == FallbackBackground
    ensures piiType !in AssetsByType <==> Border(piiType) == FallbackBorder
  {
    if piiType in AssetsByType {
      var t := AssetsByType[piiType].tone;
      assert |ToneBackground(t)| != |FallbackBackground| && |ToneBorder(t)| != |FallbackBorder|;
    }
  }

  /** The card colours and the dashboard's risk levels cover the same types. */
  lemma SameTypesAsRiskLevels()
    ensures AssetsByType.Keys == Dashboard.PiiConfigTable.Keys
  {
  }

  /**
   * Red is exactly the critical types, orange only high-risk types, yellow
   * only medium-risk types, and every low-risk type is green.
   */
  lemma TonesFollowRiskLevels(t: string)
    requires t in AssetsByType
    ensures t in Dashboard.PiiConfigTable
    ensures AssetsByType[t].tone == Red <==> Dashboard.PiiConfigTable[t].riskLevel == Dashboard.Critical
    ensures AssetsByType[t].tone == Orange ==> Dashboard.PiiConfigTable[t].riskLevel == Dashboard.High
    ensures AssetsByType[t].tone == Yellow ==> Dashboard.PiiConfigTable[t].riskLevel == Dashboard.Medium
    ensures Dashboard.PiiConfigTable[t].riskLevel == Dashboard.Low ==> AssetsByType[t].tone == Green
  {
    SameTypesAsRiskLevels();
  }

  /** The colours are coarser than the risk levels: a high-risk and a medium-risk type are green. */
  lemma GreenAboveLowRisk()
    ensures AssetsByType["financial_info"].tone == Green
      && Dashboard.PiiConfigTable["financial_info"].riskLevel == Dashboard.High
    ensures AssetsByType["coordinates"].tone == Green
      && Dashboard.PiiConfigTable["coordinates"].riskLevel == Dashboard.Medium
  {
  }

  // ---------------------------------------------------------------------
  // The group-by reduce
  // ---------------------------------------------------------------------

  /** The type key of every item, in list order. */
  function Types(items: seq<ScanPii>): (r: seq<string>)
    ensures |r| == |items| && forall i :: 0 <= i < |items| ==> r[i] == items[i].piiType
  {
    seq(|items|, i requires 0 <= i < |items| => items[i].piiType)
  }

  /** The distinct elements of `s`, each where it first occurs. */
  function FirstOccurrences(s: seq<string>): seq<string> {
    if s == [] then []
    else if s[|s| - 1] in s[..|s| - 1] then FirstOccurrences(s[..|s| - 1])
    else FirstOccurrences(s[..|s| - 1]) + [s[|s| - 1]]
  }

  lemma {:induction false} FirstOccurrencesMembers(s: seq<string>, x: string)
    ensures x in FirstOccurrences(s) <==> x in s
  {
    if s != [] {
      FirstOccurrencesMembers(s[..|s| - 1], x);
      assert s == s[..|s| - 1] + [s[|s| - 1]];
    }
  }

  lemma {:induction false} FirstOccurrencesDistinct(s: seq<string>)
    ensures Distinct(FirstOccurrences(s))
  {
    if s != [] {
      var pre := s[..|s| - 1];
      FirstOccurrencesDistinct(pre);
      FirstOccurrencesMembers(pre, s[|s| - 1]);
    }
  }

  /** The items whose type key is exactly `key`, in list order. */
  function ItemsOfType(items: seq<ScanPii>, key: string): (r: seq<ScanPii>)
    ensures forall k :: 0 <= k < |r| ==> r[k].piiType == key
  {
    Filter(items, (d: ScanPii) => d.piiType == key)
  }

  lemma ItemsOfTypeMembers(items: seq<ScanPii>, key: string, x: ScanPii)
    ensures x in ItemsOfType(items, key) <==> x in items && x.piiType == key
  {
    FilterMembers(items, (d: ScanPii) => d.piiType == key, x);
  }

  /** No item has a key that is not among the types. */
  lemma NoItemsOfOtherType(items: seq<ScanPii>, key: string)
    requires key !in Types(items)
    ensures ItemsOfType(items, key) == []
  {
    if ItemsOfType(items, key) != [] {
      var x := ItemsOfType(items, key)[0];
      ItemsOfTypeMembers(items, key, x);
    }
  }

  /** One more item extends its own group by itself and no other group. */
  lemma ItemsOfTypeSnoc(items: seq<ScanPii>, x: ScanPii, key: string)
    ensures ItemsOfType(items + [x], key) == ItemsOfType(items, key) + (if x.piiType == key then [x] else [])
  {
    assert (items + [x])[..|items|] == items;
  }

  /**
   * The reduce of the page: `acc[item.pii_type]` is created empty on the
   * first item of a type and the item pushed onto it. `keys` is the
   * accumulator's key order, the order `Object.entries` lists it in.
   */
  method GroupByType(items: seq<ScanPii>) returns (keys: seq<string>, acc: map<string, seq<ScanPii>>)
    ensures keys == FirstOccurrences(Types(items))
    ensures forall k :: k in acc <==> k in keys
    ensures forall k :: k in acc ==> acc[k] == ItemsOfType(items, k)
  {
    keys := [];
    acc := map[];
    for i := 0 to |items|
      invariant keys == FirstOccurrences(Types(items[..i]))
      invariant forall k :: k in acc <==> k in Types(items[..i])
      invariant forall k :: k in acc ==> acc[k] == ItemsOfType(items[..i], k)
    {
      var item := items[i];
      GroupStep(items, i);
      if item.piiType !in acc {
        NoItemsOfOtherType(items[..i], item.piiType);
        acc := acc[item.piiType := []];
        keys := keys + [item.piiType];
      }
      acc := acc[item.piiType := acc[item.piiType] + [item]];
    }
    assert items[..|items|] == items;
    forall k ensures k in acc <==> k in keys {
      FirstOccurrencesMembers(Types(items), k);
    }
  }

  /** What one more item does to the key order and to every group, on the specification side. */
  lemma GroupStep(items: seq<ScanPii>, i: int)
    requires 0 <= i < |items|
    ensures Types(items[..i + 1]) == Types(items[..i]) + [items[i].piiType]
    ensures FirstOccurrences(Types(items[..i + 1])) ==
      if items[i].piiType in Types(items[..i]) then FirstOccurrences(Types(items[..i]))
      else FirstOccurrences(Types(items[..i])) + [items[i].piiType]
    ensures forall k ::
      ItemsOfType(items[..i + 1], k) == ItemsOfType(items[..i], k) + (if items[i].piiType == k then [items[i]] else [])
  {
    var item := items[i];
    assert items[..i + 1] == items[..i] + [item];
    assert Types(items[..i + 1]) == Types(items[..i]) + [item.piiType];
    assert Types(items[..i + 1])[..i] == Types(items[..i]);
    forall k ensures ItemsOfType(items[..i + 1], k) == ItemsOfType(items[..i], k) + (if item.piiType == k then [item] else []) {
      ItemsOfTypeSnoc(items[..i], item, k);
    }
  }

  /** The cards: `Object.entries` of the accumulator. */
  function Groups(items: seq<ScanPii>): (groups: seq<(string, seq<ScanPii>)>)
    ensures |groups| == |FirstOccurrences(Types(items))|
  {
    var keys := FirstOccurrences(Types(items));
    seq(|keys|, i requires 0 <= i < |keys| => (keys[i], ItemsOfType(items, keys[i])))
  }

  /**
   * Grouping partitions the items: every item is in the group of its own,
   * case-sensitive, type key and in no other, and no group is empty.
   */
  lemma GroupsPartition(items: seq<ScanPii>, x: ScanPii)
    ensures Distinct(FirstOccurrences(Types(items)))
    ensures x in items ==> x.piiType in FirstOccurrences(Types(items))
    ensures forall k :: k in FirstOccurrences(Types(items)) ==>
      (x in ItemsOfType(items, k) <==> x in items && x.piiType == k)
    ensures forall k :: k in FirstOccurrences(Types(items)) ==> ItemsOfType(items, k) != []
  {
    FirstOccurrencesDistinct(Types(items));
    if x in items {
      var i :| 0 <= i < |items| && items[i] == x;
      assert Types(items)[i] == x.piiType;
      FirstOccurrencesMembers(Types(items), x.piiType);
    }
    forall k | k in FirstOccurrences(Types(items))
      ensures x in ItemsOfType(items, k) <==> x in items && x.piiType == k
      ensures ItemsOfType(items, k) != []
    {
      ItemsOfTypeMembers(items, k, x);
      FirstOccurrencesMembers(Types(items), k);
      var i :| 0 <= i < |items| && Types(items)[i] == k;
      ItemsOfTypeMembers(items, k, items[i]);
    }
  }

  /** The number of items over the groups named by `keys`. */
  function GroupSizes(items: seq<ScanPii>, keys: seq<string>): nat {
    if keys == [] then 0 else GroupSizes(items, keys[..|keys| - 1]) + |ItemsOfType(items, keys[|keys| - 1])|
  }

  lemma {:induction false} GroupSizesSnoc(items: seq<ScanPii>, x: ScanPii, keys: seq<string>)
    requires Distinct(keys)
    ensures GroupSizes(items + [x], keys) == GroupSizes(items, keys) + (if x.piiType in keys then 1 else 0)
  {
    if keys != [] {
      var pre := keys[..|keys| - 1];
      var k := keys[|keys| - 1];
      assert keys == pre + [k];
      GroupSizesSnoc(items, x, pre);
      ItemsOfTypeSnoc(items, x, k);
    }
  }

  /** The groups hold every item exactly once: their sizes add up to the item count. */
  lemma {:induction false} GroupSizesSum(items: seq<ScanPii>)
    ensures GroupSizes(items, FirstOccurrences(Types(items))) == |items|
  {
    if items != [] {
      var pre := items[..|items| - 1];
      var x := items[|items| - 1];
      var keys := FirstOccurrences(Types(pre));
      LastItemStep(items);
      GroupSizesSum(pre);
      FirstOccurrencesDistinct(Types(pre));
      FirstOccurrencesMembers(Types(pre), x.piiType);
      GroupSizesSnoc(pre, x, keys);
      if x.piiType !in Types(pre) {
        assert (keys + [x.piiType])[..|keys|] == keys;
        NoItemsOfOtherType(pre, x.piiType);
        ItemsOfTypeSnoc(pre, x, x.piiType);
      }
    }
  }

  /** The last item on the specification side: the list, its types and its key order. */
  lemma LastItemStep(items: seq<ScanPii>)
    requires items != []
    ensures var pre := items[..|items| - 1]; var x := items[|items| - 1];
      items == pre + [x]
      && FirstOccurrences(Types(items)) ==
        if x.piiType in Types(pre) then FirstOccurrences(Types(pre))
        else FirstOccurrences(Types(pre)) + [x.piiType]
  {
    var pre := items[..|items| - 1];
    var x := items[|items| - 1];
    assert items == pre + [x];
    assert Types(items) == Types(pre) + [x.piiType];
    assert Types(items)[..|items| - 1] == Types(pre);
  }

  // ---------------------------------------------------------------------
  // A card's numbers and label
  // ---------------------------------------------------------------------

  function Occurrences(items: seq<ScanPii>): (r: seq<Option<int>>)
    ensures |r| == |items| && forall i :: 0 <= i < |items| ==> r[i] == items[i].occurrences
  {
    seq(|items|, i requires 0 <= i < |items| => items[i].occurrences)
  }

  /** `items.reduce((sum, item) => sum + (item.occurrences || 1), 0)` */
  function TotalOccurrences(items: seq<ScanPii>): int {
    SumOrOne(Occurrences(items))
  }

  /** With no negative counts a card's total is at least its "N found" count. */
  lemma TotalAtLeastFound(items: seq<ScanPii>)
    requires forall i :: 0 <= i < |items| ==> OrZero(items[i].occurrences) >= 0
    ensures TotalOccurrences(items) >= |items|
  {
    SumOrOneAtLeastLength(Occurrences(items));
  }

  /** The totals of the cards named by `keys`. */
  function GroupTotals(items: seq<ScanPii>, keys: seq<string>): int {
    if keys == [] then 0 else GroupTotals(items, keys[..|keys| - 1]) + TotalOccurrences(ItemsOfType(items, keys[|keys| - 1]))
  }

  lemma TotalOccurrencesSnoc(items: seq<ScanPii>, x: ScanPii)
    ensures TotalOccurrences(items + [x]) == TotalOccurrences(items) + OrOne(x.occurrences)
  {
    assert Occurrences(items + [x]) == Occurrences(items) + [x.occurrences];
    assert Occurrences(items + [x])[..|items|] == Occurrences(items);
  }

  lemma {:induction false} GroupTotalsSnoc(items: seq<ScanPii>, x: ScanPii, keys: seq<string>)
    requires Distinct(keys)
    ensures GroupTotals(items + [x], keys) == GroupTotals(items, keys) + (if x.piiType in keys then OrOne(x.occurrences) else 0)
  {
    if keys != [] {
      var pre := keys[..|keys| - 1];
      var k := keys[|keys| - 1];
      assert keys == pre + [k];
      GroupTotalsSnoc(items, x, pre);
      ItemsOfTypeSnoc(items, x, k);
      if x.piiType == k {
        assert x.piiType !in pre;
        assert ItemsOfType(items + [x], k) == ItemsOfType(items, k) + [x];
        TotalOccurrencesSnoc(ItemsOfType(items, k), x);
      } else {
        assert ItemsOfType(items, k) + [] == ItemsOfType(items, k);
        assert ItemsOfType(items + [x], k) == ItemsOfType(items, k);
        assert x.piiType in keys <==> x.piiType in pre;
      }
    }
  }

  /** The card totals add up to the scan's total occurrence count. */
  lemma {:induction false} GroupTotalsSum(items: seq<ScanPii>)
    ensures GroupTotals(items, FirstOccurrences(Types(items))) == TotalOccurrences(items)
  {
    if items != [] {
      var pre := items[..|items| - 1];
      var x := items[|items| - 1];
      var keys := FirstOccurrences(Types(pre));
      LastItemStep(items);
      GroupTotalsSum(pre);
      FirstOccurrencesDistinct(Types(pre));
      FirstOccurrencesMembers(Types(pre), x.piiType);
      GroupTotalsSnoc(pre, x, keys);
      TotalOccurrencesSnoc(pre, x);
      if x.piiType !in Types(pre) {
        assert (keys + [x.piiType])[..|keys|] == keys;
        NewGroupTotal(pre, x);
      }
    }
  }

  /** The group an item opens holds that item alone. */
  lemma NewGroupTotal(pre: seq<ScanPii>, x: ScanPii)
    requires x.piiType !in Types(pre)
    ensures TotalOccurrences(ItemsOfType(pre + [x], x.piiType)) == OrOne(x.occurrences)
  {
    NoItemsOfOtherType(pre, x.piiType);
    ItemsOfTypeSnoc(pre, x, x.piiType);
    assert ItemsOfType(pre + [x], x.piiType) == [x];
    TotalOccurrencesSnoc([], x);
    assert [] + [x] == [x];
  }
}
