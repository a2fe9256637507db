/** The position book of a strategy (mmm/position/manager.py): a list of
    `Asset` objects, each an instrument id and an amount that `add` and
    `cost` change in place. Decimal amounts are modelled as exact reals. */
module MmmPosition {
  import opened Types

  /** `Asset(inst_id, amount)` of mmm/project_types.py. */
  class Asset {
    const instId: string
    var amount: real

    constructor (instId: string, amount: real)
      ensures this.instId == instId && this.amount == amount
    {
      this.instId := instId;
      this.amount := amount;
    }
  }

  /** The position of the first `id` in `ids`, or `|ids|` when there is none. */
  function FirstIndex(ids: seq<string>, id: string): (k: nat)
    ensures k <= |ids|
    ensures forall j :: 0 <= j < k ==> ids[j] != id
    ensures k < |ids| ==> ids[k] == id
  {
    if |ids| == 0 then 0
    else if ids[0] == id then 0
    else
      var k := FirstIndex(ids[1..], id);
      assert forall j :: 1 <= j < k + 1 ==> ids[j] == ids[1..][j - 1];
      k + 1
  }

  /** The instrument ids of a list of holdings, in order. */
  function Ids(hs: seq<(string, real)>): (r: seq<string>)
    ensures |r| == |hs| && forall i :: 0 <= i < |hs| ==> r[i] == hs[i].0
  {
    seq(|hs|, i requires 0 <= i < |hs| => hs[i].0)
  }

  predicate UniqueIds(hs: seq<(string, real)>)
  {
    forall i, j :: 0 <= i < j < |hs| ==> hs[i].0 != hs[j].0
  }

  /** The holdings after `add`: the first holding of `id` grows by `amount`,
      or a new holding goes to the end. */
  function Credited(hs: seq<(string, real)>, id: string, amount: real): (r: seq<(string, real)>)
  {
    var k := FirstIndex(Ids(hs), id);
    if k < |hs| then hs[k := (id, hs[k].1 + amount)] else hs + [(id, amount)]
  }

  /** The holdings after `cost`: the first holding of `id` shrinks by
      `amount`, with no lower bound; without one nothing changes. */
  function Debited(hs: seq<(string, real)>, id: string, amount: real): (r: seq<(string, real)>)
  {
    var k := FirstIndex(Ids(hs), id);
    if k < |hs| then hs[k := (id, hs[k].1 - amount)] else hs
  }

  /** `add` keeps the ids unique, changes only the holding of `id`, and grows
      the list exactly when `id` was not held. */
  lemma CreditedShape(hs: seq<(string, real)>, id: string, amount: real)
    requires UniqueIds(hs)
    ensures var r := Credited(hs, id, amount);
            && UniqueIds(r)
            && Ids(r)[..|hs|] == Ids(hs)
            && (|r| == |hs| <==> id in Ids(hs))
            && (forall i :: 0 <= i < |hs| && hs[i].0 != id ==> r[i] == hs[i])
            && (!(id in Ids(hs)) ==> r[|hs|] == (id, amount))
  {
    var k := FirstIndex(Ids(hs), id);
    var r := Credited(hs, id, amount);
    if k == |hs| {
      assert forall i :: 0 <= i < |hs| ==> Ids(hs)[i] != id;
    }
    assert Ids(r)[..|hs|] == Ids(hs);
  }

  /** `cost` never changes which ids are held, and changes only the holding
      of `id`. */
  lemma DebitedShape(hs: seq<(string, real)>, id: string, amount: real)
    ensures var r := Debited(hs, id, amount);
            && Ids(r) == Ids(hs)
            && (forall i :: 0 <= i < |hs| && hs[i].0 != id ==> r[i] == hs[i])
            && (id !in Ids(hs) ==> r == hs)
  {
    assert Ids(Debited(hs, id, amount)) == Ids(hs);
  }

  /** Costing what was just added, or adding what was just costed, for a held
      instrument restores the holdings. */
  lemma DebitUndoesCredit(hs: seq<(string, real)>, id: string, amount: real)
    requires id in Ids(hs)
    ensures Debited(Credited(hs, id, amount), id, amount) == hs
    ensures Credited(Debited(hs, id, amount), id, amount) == hs
  {
    var k := FirstIndex(Ids(hs), id);
    assert hs[k].0 == id;
    var up := hs[k := (id, hs[k].1 + amount)];
    var down := hs[k := (id, hs[k].1 - amount)];
    IdsKept(hs, k, hs[k].1 + amount);
    IdsKept(hs, k, hs[k].1 - amount);
    assert Debited(up, id, amount) == up[k := (id, hs[k].1)];
    assert Credited(down, id, amount) == down[k := (id, hs[k].1)];
    Restored(hs, k, (id, hs[k].1 + amount));
    Restored(hs, k, (id, hs[k].1 - amount));
  }

  /** A new amount for one holding keeps the ids. */
  lemma IdsKept(hs: seq<(string, real)>, k: nat, amount: real)
    requires k < |hs|
    ensures Ids(hs[k := (hs[k].0, amount)]) == Ids(hs)
  {
  }

  /** Putting back what was in a place undoes changing it. */
  lemma Restored<T>(s: seq<T>, k: nat, x: T)
    requires k < |s|
    ensures s[k := x][k := s[k]] == s
  {
  }

  /** `StrategyPosition(assets)`; the initial worth needs external prices and
      is not modelled. */
  class StrategyPosition {
    var assets: seq<Asset>

    constructor (assets: seq<Asset>)
      ensures this.assets == assets
    {
      this.assets := assets;
    }

    function InstIds(): (r: seq<string>)
      reads this
      ensures |r| == |assets| && forall i :: 0 <= i < |assets| ==> r[i] == assets[i].instId
    {
      seq(|assets|, i requires 0 <= i < |assets| reads this => assets[i].instId)
    }

    /** The list as values: each asset's id and amount. */
    ghost function Holdings(): (r: seq<(string, real)>)
      reads this, assets
      ensures |r| == |assets| && forall i :: 0 <= i < |assets| ==> r[i] == (assets[i].instId, assets[i].amount)
    {
      seq(|assets|, i requires 0 <= i < |assets| reads this, assets => (assets[i].instId, assets[i].amount))
    }

    /** No asset object is in the list twice. */
    ghost predicate Distinct()
      reads this
    {
      forall i, j :: 0 <= i < j < |assets| ==> assets[i] != assets[j]
    }

    /** `add(asset)`: the first asset with the same id grows by `asset.amount`
        in place; with none, `asset` itself is appended. */
    method Add(asset: Asset)
      modifies this, assets
      ensures var k := FirstIndex(old(InstIds()), asset.instId);
              if k < |old(assets)| then
                && assets == old(assets)
                && forall j :: 0 <= j < |assets| ==>
                     assets[j].amount == old(assets[j].amount) + (if assets[j] == assets[k] then old(asset.amount) else 0.0)
              else
                && assets == old(assets) + [asset]
                && asset.amount == old(asset.amount)
                && forall j :: 0 <= j < |old(assets)| ==> assets[j].amount == old(assets[j].amount)
      ensures old(Distinct()) ==> Distinct() && Holdings() == Credited(old(Holdings()), asset.instId, old(asset.amount))
    {
      ghost var ids := InstIds();
      assert Ids(old(Holdings())) == ids;
      var k := Find(asset.instId);
      if k < |assets| {
        assets[k].amount := assets[k].amount + asset.amount;
      } else {
        assert asset !in old(assets);
        assets := assets + [asset];
      }
    }

    /** `cost(asset)`: the first asset with the same id shrinks by
        `asset.amount` in place; with none, only an error is logged. */
    method Cost(asset: Asset)
      modifies assets
      ensures var k := FirstIndex(InstIds(), asset.instId);
              forall j :: 0 <= j < |assets| ==>
                assets[j].amount == old(assets[j].amount) - (if k < |assets| && assets[j] == assets[k] then old(asset.amount) else 0.0)
      ensures old(Distinct()) ==> Holdings() == Debited(old(Holdings()), asset.instId, old(asset.amount))
    {
      ghost var ids := InstIds();
      assert Ids(old(Holdings())) == ids;
      var k := Find(asset.instId);
      if k < |assets| {
        assets[k].amount := assets[k].amount - asset.amount;
      }
    }

    /** The loop `add`, `cost` and `get_asset` share: the position of the
        first asset with id `instId`, or the length of the list. */
    method Find(instId: string) returns (k: nat)
      ensures k == FirstIndex(InstIds(), instId)
    {
      ghost var ids := InstIds();
      k := 0;
      while k < |assets|
        invariant 0 <= k <= |assets|
        invariant forall j :: 0 <= j < k ==> ids[j] != instId
      {
        if assets[k].instId == instId {
          assert FirstIndex(ids, instId) == k;
          return;
        }
        k := k + 1;
      }
      assert FirstIndex(ids, instId) == |ids|;
    }

    /** `get_asset(inst_id)`: the first asset with that id, or None. */
    method GetAsset(instId: string) returns (r: Option<Asset>)
      ensures var k := FirstIndex(InstIds(), instId);
              r == if k < |assets| then Some(assets[k]) else None
    {
      var k := Find(instId);
      r := if k < |assets| then Some(assets[k]) else None;
    }
  }

}
