/** The brand distribution tree of the brand management page: the nested
    province → city → {district → mall, mall} → brand payload of the
    brand-tree endpoint folded into the key/title/children nodes the tree
    view displays (src/pages/BrandManagement.tsx, `fetchBrands`). */
module BrandTree {
  import opened Js
  import Seqs

  // ---------------------------------------------------------------------
  // Payload (the endpoint's response, an input value)

  datatype BrandRec = BrandRec(id: string, name: string)

  datatype MallRec = MallRec(id: string, name: string, brands: Option<seq<BrandRec>>)

  /** A district grouping; the endpoint may send one without id or name for
      the malls of a city that have no district. */
  datatype DistrictRec = DistrictRec(id: Option<string>, name: Option<string>, malls: Option<seq<MallRec>>)

  datatype CityRec = CityRec(
    id: string,
    name: string,
    districts: Option<seq<DistrictRec>>,
    malls: Option<seq<MallRec>>)

  datatype ProvinceRec = ProvinceRec(id: string, name: string, cities: Option<seq<CityRec>>)

  // ---------------------------------------------------------------------
  // Display tree

  datatype TreeNode = TreeNode(key: string, title: string, children: seq<TreeNode>)

  const NoDistrictTitle: string := "（无区县）"
  const NoDistrictSuffix: string := "-nodistrict"

  /** Key of a brand leaf: the same brand sits under many malls, so the leaf
      key joins the mall id and the brand id with '-'. */
  function BrandKey(mallId: string, brandId: string): string {
    mallId + "-" + brandId
  }

  /** Key of a district grouping that has no id of its own. */
  function NoDistrictKey(cityId: string): string {
    cityId + NoDistrictSuffix
  }

  /** A brand leaf. The source's leaf object has no `children` key; `[]`
      stands for it, as the tree view shows a missing key and an empty list
      alike. A leaf therefore looks like a mall without brands. */
  function BrandLeaf(mallId: string, b: BrandRec): TreeNode {
    TreeNode(BrandKey(mallId, b.id), b.name, [])
  }

  /** A mall node: one leaf per brand, in payload order; a mall without
      brands keeps an empty children list rather than being pruned. */
  function MallNode(m: MallRec): (n: TreeNode)
    ensures n.key == m.id && n.title == m.name
    ensures |n.children| == |OrEmpty(m.brands)|
    ensures m.brands.None? ==> n.children == []
    ensures forall j :: 0 <= j < |n.children| ==>
      var b := OrEmpty(m.brands)[j];
      n.children[j].key == m.id + "-" + b.id && n.children[j].title == b.name && n.children[j].children == []
  {
    var bs := OrEmpty(m.brands);
    TreeNode(m.id, m.name, seq(|bs|, j requires 0 <= j < |bs| => BrandLeaf(m.id, bs[j])))
  }

  function MallNodes(ms: seq<MallRec>): (r: seq<TreeNode>)
    ensures |r| == |ms|
    ensures forall i :: 0 <= i < |ms| ==> r[i] == MallNode(ms[i])
  {
    seq(|ms|, i requires 0 <= i < |ms| => MallNode(ms[i]))
  }

  /** A district node under city `cityId`: keyed by the district id when it
      is truthy, otherwise by the synthetic `cityId-nodistrict`; titled by
      its name, or the "no district" placeholder. */
  function DistrictNode(cityId: string, d: DistrictRec): (n: TreeNode)
    ensures Truthy(d.id) ==> n.key == d.id.value
    ensures !Truthy(d.id) ==> n.key == cityId + "-nodistrict"
    ensures Truthy(d.name) ==> n.title == d.name.value
    ensures !Truthy(d.name) ==> n.title == "（无区县）"
    ensures n.children == MallNodes(OrEmpty(d.malls))
  {
    TreeNode(
      if Truthy(d.id) then d.id.value else NoDistrictKey(cityId),
      if Truthy(d.name) then d.name.value else NoDistrictTitle,
      MallNodes(OrEmpty(d.malls)))
  }

  /** A city node: all district nodes first, then one node per mall attached
      directly to the city, each group in payload order. */
  function CityNode(c: CityRec): (n: TreeNode)
    ensures n.key == c.id && n.title == c.name
    ensures |n.children| == |OrEmpty(c.districts)| + |OrEmpty(c.malls)|
    ensures forall j :: 0 <= j < |OrEmpty(c.districts)| ==>
      n.children[j] == DistrictNode(c.id, OrEmpty(c.districts)[j])
    ensures forall j :: 0 <= j < |OrEmpty(c.malls)| ==>
      n.children[|OrEmpty(c.districts)| + j] == MallNode(OrEmpty(c.malls)[j])
  {
    var ds := OrEmpty(c.districts);
    var districtNodes := seq(|ds|, j requires 0 <= j < |ds| => DistrictNode(c.id, ds[j]));
    TreeNode(c.id, c.name, districtNodes + MallNodes(OrEmpty(c.malls)))
  }

  function ProvinceNode(p: ProvinceRec): (n: TreeNode)
    ensures n.key == p.id && n.title == p.name
    ensures |n.children| == |OrEmpty(p.cities)|
    ensures forall j :: 0 <= j < |n.children| ==> n.children[j] == CityNode(OrEmpty(p.cities)[j])
  {
    var cs := OrEmpty(p.cities);
    TreeNode(p.id, p.name, seq(|cs|, j requires 0 <= j < |cs| => CityNode(cs[j])))
  }

  /** The whole tree: exactly one top-level node per province, in payload
      order, keyed by the province id; a missing province list is empty. */
  function BuildTree(provinces: Option<seq<ProvinceRec>>): (r: seq<TreeNode>)
    ensures |r| == |OrEmpty(provinces)|
    ensures provinces.None? ==> r == []
    ensures forall i :: 0 <= i < |r| ==>
      r[i].key == provinces.value[i].id && r[i].title == provinces.value[i].name
    ensures forall i :: 0 <= i < |r| ==> r[i] == ProvinceNode(provinces.value[i])
  {
    var ps := OrEmpty(provinces);
    seq(|ps|, i requires 0 <= i < |ps| => ProvinceNode(ps[i]))
  }

  // ---------------------------------------------------------------------
  // Nothing pruned, nothing invented: one node per payload record

  /** Number of nodes of a forest, counted at every depth. */
  function ForestSize(nodes: seq<TreeNode>): nat
    decreases nodes
  {
    if |nodes| == 0 then 0
    else 1 + ForestSize(nodes[0].children) + ForestSize(nodes[1..])
  }

  /** Number of mall and brand records in a list of malls. */
  function MallRecords(ms: seq<MallRec>): nat {
    if |ms| == 0 then 0
    else 1 + |OrEmpty(ms[0].brands)| + MallRecords(ms[1..])
  }

  function DistrictRecords(ds: seq<DistrictRec>): nat {
    if |ds| == 0 then 0
    else 1 + MallRecords(OrEmpty(ds[0].malls)) + DistrictRecords(ds[1..])
  }

  function CityRecords(cs: seq<CityRec>): nat {
    if |cs| == 0 then 0
    else
      var c := cs[0];
      1 + DistrictRecords(OrEmpty(c.districts)) + MallRecords(OrEmpty(c.malls)) + CityRecords(cs[1..])
  }

  /** Number of province, city, district, mall and brand records in the
      payload, with missing arrays counted as empty. */
  function PayloadRecords(provinces: Option<seq<ProvinceRec>>): nat {
    ProvinceRecords(OrEmpty(provinces))
  }

  function ProvinceRecords(ps: seq<ProvinceRec>): nat {
    if |ps| == 0 then 0
    else 1 + CityRecords(OrEmpty(ps[0].cities)) + ProvinceRecords(ps[1..])
  }

  lemma {:induction false} ForestSizeAppend(a: seq<TreeNode>, b: seq<TreeNode>)
    ensures ForestSize(a + b) == ForestSize(a) + ForestSize(b)
    decreases |a|
  {
    if |a| == 0 {
      assert a + b == b;
    } else {
      ForestSizeAppend(a[1..], b);
      assert (a + b)[0] == a[0];
      assert (a + b)[1..] == a[1..] + b;
    }
  }

  lemma {:induction false} ForestSizeOfLeaves(nodes: seq<TreeNode>)
    requires forall i :: 0 <= i < |nodes| ==> nodes[i].children == []
    ensures ForestSize(nodes) == |nodes|
    decreases |nodes|
  {
    if |nodes| > 0 {
      ForestSizeOfLeaves(nodes[1..]);
    }
  }

  lemma {:induction false} MallNodesSize(ms: seq<MallRec>, nodes: seq<TreeNode>)
    requires |nodes| == |ms|
    requires forall i :: 0 <= i < |ms| ==> nodes[i] == MallNode(ms[i])
    ensures ForestSize(nodes) == MallRecords(ms)
    decreases |ms|
  {
    if |ms| > 0 {
      ForestSizeOfLeaves(MallNode(ms[0]).children);
      MallNodesSize(ms[1..], nodes[1..]);
    }
  }

  lemma {:induction false} DistrictNodesSize(cityId: string, ds: seq<DistrictRec>, nodes: seq<TreeNode>)
    requires |nodes| == |ds|
    requires forall i :: 0 <= i < |ds| ==> nodes[i] == DistrictNode(cityId, ds[i])
    ensures ForestSize(nodes) == DistrictRecords(ds)
    decreases |ds|
  {
    if |ds| > 0 {
      var ms := OrEmpty(ds[0].malls);
      MallNodesSize(ms, MallNodes(ms));
      DistrictNodesSize(cityId, ds[1..], nodes[1..]);
    }
  }

  lemma {:induction false} CityNodeSize(c: CityRec)
    ensures ForestSize(CityNode(c).children) == DistrictRecords(OrEmpty(c.districts)) + MallRecords(OrEmpty(c.malls))
  {
    var ds := OrEmpty(c.districts);
    var ms := OrEmpty(c.malls);
    var kids := CityNode(c).children;
    var districtNodes := kids[..|ds|];
    var mallNodes := kids[|ds|..];
    assert kids == districtNodes + mallNodes;
    ForestSizeAppend(districtNodes, mallNodes);
    DistrictNodesSize(c.id, ds, districtNodes);
    MallNodesSize(ms, mallNodes);
  }

  lemma {:induction false} CityNodesSize(cs: seq<CityRec>, nodes: seq<TreeNode>)
    requires |nodes| == |cs|
    requires forall i :: 0 <= i < |cs| ==> nodes[i] == CityNode(cs[i])
    ensures ForestSize(nodes) == CityRecords(cs)
    decreases |cs|
  {
    if |cs| > 0 {
      CityNodeSize(cs[0]);
      CityNodesSize(cs[1..], nodes[1..]);
    }
  }

  lemma {:induction false} ProvinceNodesSize(ps: seq<ProvinceRec>, nodes: seq<TreeNode>)
    requires |nodes| == |ps|
    requires forall i :: 0 <= i < |ps| ==> nodes[i] == ProvinceNode(ps[i])
    ensures ForestSize(nodes) == ProvinceRecords(ps)
    decreases |ps|
  {
    if |ps| > 0 {
      CityNodesSize(OrEmpty(ps[0].cities), ProvinceNode(ps[0]).children);
      ProvinceNodesSize(ps[1..], nodes[1..]);
    }
  }

  /** The tree has exactly one node per record of the payload: no level is
      pruned (empty malls and districts stay) and no node is made up. */
  lemma TreeMirrorsPayload(provinces: Option<seq<ProvinceRec>>)
    ensures ForestSize(BuildTree(provinces)) == PayloadRecords(provinces)
  {
    ProvinceNodesSize(OrEmpty(provinces), BuildTree(provinces));
  }

  // ---------------------------------------------------------------------
  // Synthetic keys

  /** Without a restriction on ids, two different (mall, brand) pairs can
      share a leaf key. */
  lemma BrandKeysCollideWithoutHypothesis()
    ensures BrandKey("a-b", "c") == BrandKey("a", "b-c")
  {
  }

  /** Every district grouping of a city that lacks an id gets the same key. */
  lemma IdlessDistrictsShareKey(cityId: string, d1: DistrictRec, d2: DistrictRec)
    requires !Truthy(d1.id) && !Truthy(d2.id)
    ensures DistrictNode(cityId, d1).key == DistrictNode(cityId, d2).key
  {
  }

  /** Index of the first '-' of a key, or its length when there is none. */
  function FirstDash(k: string): (i: nat)
    ensures i <= |k|
  {
    if |k| == 0 || k[0] == '-' then 0 else 1 + FirstDash(k[1..])
  }

  /** When the mall id holds no '-', the first '-' of a brand key is the
      separator. */
  lemma {:induction false} FirstDashOfBrandKey(mallId: string, brandId: string)
    requires '-' !in mallId
    ensures FirstDash(BrandKey(mallId, brandId)) == |mallId|
    decreases |mallId|
  {
    var k := BrandKey(mallId, brandId);
    if |mallId| > 0 {
      assert mallId[0] in mallId;
      assert k[1..] == BrandKey(mallId[1..], brandId);
      FirstDashOfBrandKey(mallId[1..], brandId);
    }
  }

  /** Under the hypothesis that mall ids contain no '-', a brand leaf key
      determines both its mall id and its brand id. */
  lemma BrandKeyInjective(m1: string, b1: string, m2: string, b2: string)
    requires '-' !in m1 && '-' !in m2
    ensures BrandKey(m1, b1) == BrandKey(m2, b2) <==> m1 == m2 && b1 == b2
  {
    if BrandKey(m1, b1) == BrandKey(m2, b2) {
      FirstDashOfBrandKey(m1, b1);
      FirstDashOfBrandKey(m2, b2);
      var k := BrandKey(m1, b1);
      assert m1 == k[..|m1|] == m2;
      assert b1 == k[|m1| + 1..] == b2;
    }
  }

  /** Under the hypothesis that real ids contain no '-', a synthetic key is
      never a real id. */
  lemma SyntheticKeysAvoidRealIds(cityId: string, mallId: string, brandId: string, realId: string)
    requires '-' !in realId
    ensures NoDistrictKey(cityId) != realId
    ensures BrandKey(mallId, brandId) != realId
  {
    assert NoDistrictKey(cityId)[|cityId|] == '-';
    assert BrandKey(mallId, brandId)[|mallId|] == '-';
  }

  /** Sibling leaves under one mall have distinct keys exactly when the
      mall's brand ids are distinct. */
  lemma MallLeafKeysDistinct(m: MallRec)
    requires '-' !in m.id
    ensures var n := MallNode(m); var bs := OrEmpty(m.brands);
      (forall i, j :: 0 <= i < j < |bs| ==> n.children[i].key != n.children[j].key)
      <==> (forall i, j :: 0 <= i < j < |bs| ==> bs[i].id != bs[j].id)
  {
    var n := MallNode(m);
    var bs := OrEmpty(m.brands);
    forall i, j | 0 <= i < j < |bs|
      ensures n.children[i].key != n.children[j].key <==> bs[i].id != bs[j].id
    {
      BrandKeyInjective(m.id, bs[i].id, m.id, bs[j].id);
    }
  }

  // ---------------------------------------------------------------------
  // A worked example

  /** Province "A" with city "B"; "B" has district "C" holding mall "M" with
      brand "X", and mall "M2" with no brands attached directly to "B". */
  lemma WorkedExample()
    ensures
      var m := MallRec("M", "M", Some([BrandRec("X", "X")]));
      var m2 := MallRec("M2", "M2", None);
      var d := DistrictRec(Some("C"), Some("C"), Some([m]));
      var c := CityRec("B", "B", Some([d]), Some([m2]));
      BuildTree(Some([ProvinceRec("A", "A", Some([c]))])) ==
        [TreeNode("A", "A", [
          TreeNode("B", "B", [
            TreeNode("C", "C", [TreeNode("M", "M", [TreeNode("M-X", "X", [])])]),
            TreeNode("M2", "M2", [])])])]
  {
    var m := MallRec("M", "M", Some([BrandRec("X", "X")]));
    var m2 := MallRec("M2", "M2", None);
    var d := DistrictRec(Some("C"), Some("C"), Some([m]));
    var c := CityRec("B", "B", Some([d]), Some([m2]));
    assert BrandKey("M", "X") == "M-X";
    assert MallNode(m).children == [BrandLeaf("M", BrandRec("X", "X"))];
    assert MallNode(m2) == TreeNode("M2", "M2", []);
    assert MallNodes([m]) == [MallNode(m)];
    assert MallNodes([m2]) == [MallNode(m2)];
    assert DistrictNode("B", d) == TreeNode("C", "C", [MallNode(m)]);
    assert CityNode(c).children == [DistrictNode("B", d), MallNode(m2)];
    var p := ProvinceRec("A", "A", Some([c]));
    assert ProvinceNode(p).children == [CityNode(c)];
  }
}
