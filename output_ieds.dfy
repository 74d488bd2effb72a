/**
 * The IED editor of one output connection (`IedArrayOutput` in
 * `request-form/ieds-output.tsx`). It offers a pool of IEDs derived from
 * the stored inputs (deduplicated on name and manufacturer, or the whole
 * catalog when no inputs are stored), split into Treetech and third-party
 * lists sorted by name, and edits `saidas[nestIndex].ieds` in place:
 * replicate the input IEDs, copy one item, append a blank one, remove one,
 * pick a name.
 */
module OutputIeds {
  import opened Seqs
  import opened FormTypes
  import InputIeds

  /** `storedFormData.entradas?.flatMap(entry => entry.ieds)`. */
  function DefaultIeds(entradas: Option<seq<Connection>>): (r: Option<seq<Ied>>)
    ensures r.Some? <==> entradas.Some?
  {
    match entradas
    case None => None
    case Some(es) => Some(AllIedsOf(es))
  }

  /** `allIeds`: the `{nome, fabricante}` pairs of every stored input IED,
      filtered to the first occurrence of each pair; the own catalog followed
      by the third-party one when no inputs are stored. */
  function AllIeds(entradas: Option<seq<Connection>>, own: seq<IedRef>, thirdParty: seq<IedRef>): (pool: seq<IedRef>)
    ensures entradas.None? ==> pool == own + thirdParty
    ensures entradas.Some? ==> pool == Distinct(Refs(AllIedsOf(entradas.value)))
  {
    match entradas
    case None => own + thirdParty
    case Some(es) =>
      var available := Refs(AllIedsOf(es));
      KeepFirstOccurrencesIsDistinct(available, |available|);
      assert available[..|available|] == available;
      KeepFirstOccurrences(available, |available|)
  }

  /** With inputs stored, the pool holds each input pair exactly once, holds
      nothing else, and lists the pairs in the order they first occur. */
  lemma AllIedsFromInputs(entradas: seq<Connection>, own: seq<IedRef>, thirdParty: seq<IedRef>)
    ensures var pool := AllIeds(Some(entradas), own, thirdParty);
            var available := Refs(AllIedsOf(entradas));
            && NoDuplicates(pool)
            && (forall i :: 0 <= i < |available| ==> available[i] in pool)
            && (forall i :: 0 <= i < |pool| ==> pool[i] in available)
            && (forall i, j :: 0 <= i < j < |pool| ==> FirstIndex(available, pool[i]) < FirstIndex(available, pool[j]))
  {
    var available := Refs(AllIedsOf(entradas));
    forall i, j | 0 <= i < j < |Distinct(available)|
      ensures FirstIndex(available, Distinct(available)[i]) < FirstIndex(available, Distinct(available)[j])
    {
      DistinctKeepsFirstOccurrenceOrder(available, i, j);
    }
  }

  /** Stored but empty inputs give an empty pool: the catalog is not offered then. */
  lemma EmptyInputsEmptyPool(own: seq<IedRef>, thirdParty: seq<IedRef>)
    ensures AllIeds(Some([]), own, thirdParty) == []
  {
    assert AllIedsOf([]) == [];
    assert Refs([]) == [];
  }

  /** `iedsTreetech`: the Treetech entries of the pool, sorted by name. */
  function TreetechIeds(pool: seq<IedRef>, le: (string, string) -> bool): (r: seq<IedRef>)
    ensures forall i :: 0 <= i < |r| ==> IsTreetech(r[i])
    ensures multiset(r) == multiset(Filter(pool, IsTreetech))
  {
    var f := Filter(pool, IsTreetech);
    var r := SortByName(f, le);
    assert forall i :: 0 <= i < |r| ==> r[i] in multiset(f);
    r
  }

  /** `iedsTerceiros`: the other entries of the pool, sorted by name. */
  function ThirdPartyIeds(pool: seq<IedRef>, le: (string, string) -> bool): (r: seq<IedRef>)
    ensures forall i :: 0 <= i < |r| ==> IsThirdParty(r[i])
  {
    ThirdPartySorted(pool, le)
  }

  /** The two lists split the pool: together they are a permutation of it,
      and under a total preorder each is sorted by name. */
  lemma SplitPartitionsPool(pool: seq<IedRef>, le: (string, string) -> bool)
    ensures multiset(TreetechIeds(pool, le)) + multiset(ThirdPartyIeds(pool, le)) == multiset(pool)
    ensures TotalPreorder(le) ==> SortedBy(TreetechIeds(pool, le), NomeOf, le)
    ensures TotalPreorder(le) ==> SortedBy(ThirdPartyIeds(pool, le), NomeOf, le)
  {
    FilterPartition(pool, IsTreetech, IsThirdParty);
    if TotalPreorder(le) {
      SortBySorted(Filter(pool, IsTreetech), NomeOf, le);
      ThirdPartySortedIsSorted(pool, le);
    }
  }

  /** The controls one item of the list renders, top to bottom: the name
      select with its copy and remove buttons, the manufacturer label, the
      address input, the (disabled) modules input, the optional input. */
  datatype ItemInput = NameSelect | CopyButton | RemoveButton | ManufacturerLabel
                     | AddressInput | ModulesInput | OptionalInput

  /** The module-bearing IED kinds. */
  predicate ModulesFieldShown(name: string) {
    name == "BM" || name == "COMM4" || name == "Entrada Digital do gateway"
  }

  /** What an item holding `ied` renders: every control always, except the
      modules input, which only the module-bearing kinds show. */
  function ItemInputs(ied: Ied): (r: seq<ItemInput>)
    ensures ModulesInput in r <==> ModulesFieldShown(ied.name)
    ensures NameSelect in r && CopyButton in r && RemoveButton in r && ManufacturerLabel in r
    ensures AddressInput in r && OptionalInput in r
    ensures NoDuplicates(r) && |r| >= 6 && r[0] == NameSelect && r[|r| - 1] == OptionalInput
  {
    if ModulesFieldShown(ied.name) then
      [NameSelect, CopyButton, RemoveButton, ManufacturerLabel, AddressInput, ModulesInput, OptionalInput]
    else
      [NameSelect, CopyButton, RemoveButton, ManufacturerLabel, AddressInput, OptionalInput]
  }

  /** Picking a name decides, by that name alone, whether the item shows
      the modules input; the other controls stay as they were. */
  lemma RenamedItemInputs(ied: Ied, value: string, pool: seq<IedRef>)
    ensures (ModulesInput in ItemInputs(InputIeds.Renamed(ied, value, pool))) <==>
            (value == "BM" || value == "COMM4" || value == "Entrada Digital do gateway")
    ensures ItemInputs(InputIeds.Renamed(ied, value, pool)) == ItemInputs(ied.(name := value))
  {
  }

  /** `ied` re-addressed to `a`, every other field copied. */
  function Readdressed(ied: Ied, a: nat): Ied {
    ied.(address := Number(a))
  }

  /** The list `replicateInput` builds: the input IEDs in order, numbered 1..n. */
  function Replicated(d: seq<Ied>): (r: seq<Ied>)
    ensures |r| == |d|
    ensures forall i :: 0 <= i < |d| ==> r[i] == Readdressed(d[i], i + 1)
  {
    seq(|d|, i requires 0 <= i < |d| => Readdressed(d[i], i + 1))
  }

  /** The editor's two sources agree: replicating `defaultIeds` yields
      only IEDs whose name and manufacturer the name select offers in
      `allIeds`, and it yields every such pair. */
  lemma ReplicatedNamesInPool(entradas: seq<Connection>, own: seq<IedRef>, thirdParty: seq<IedRef>)
    ensures var rep := Replicated(DefaultIeds(Some(entradas)).value);
            var pool := AllIeds(Some(entradas), own, thirdParty);
            && (forall i :: 0 <= i < |rep| ==> RefOf(rep[i]) in pool)
            && (forall i :: 0 <= i < |pool| ==> pool[i] in Refs(rep))
  {
    var d := AllIedsOf(entradas);
    var rep := Replicated(d);
    AllIedsFromInputs(entradas, own, thirdParty);
    ReplicatedCopiesInputs(d);
    forall i | 0 <= i < |rep| ensures RefOf(rep[i]) in AllIeds(Some(entradas), own, thirdParty) {
      assert RefOf(rep[i]) == Refs(d)[i];
    }
  }

  /** Item i carries address i + 1. */
  ghost predicate Numbered(ieds: seq<Ied>) {
    forall i :: 0 <= i < |ieds| ==> ieds[i].address == Number(i + 1)
  }

  /** Replication keeps every input IED's name, manufacturer, modules and
      optional fields, in order, and numbers the result from 1. */
  lemma ReplicatedCopiesInputs(d: seq<Ied>)
    ensures Refs(Replicated(d)) == Refs(d)
    ensures Numbered(Replicated(d))
    ensures forall i :: 0 <= i < |d| ==>
              Replicated(d)[i].modules == d[i].modules && Replicated(d)[i].optional == d[i].optional
  {
  }

  /** The item `copyIed(k)` appends: item k with address `fields.length + 1`. */
  function AppendCopy(fields: seq<Ied>, k: nat): (r: seq<Ied>)
    requires k < |fields|
    ensures |r| == |fields| + 1 && r[..|fields|] == fields
    ensures RefOf(r[|fields|]) == RefOf(fields[k]) && r[|fields|].address == Number(|fields| + 1)
    ensures r[|fields|].modules == fields[k].modules && r[|fields|].optional == fields[k].optional
  {
    fields + [Readdressed(fields[k], |fields| + 1)]
  }

  /** The item "Adicionar IED" appends: empty fields, address `fields.length + 1`. */
  function AppendBlank(fields: seq<Ied>): (r: seq<Ied>)
    ensures |r| == |fields| + 1 && r[..|fields|] == fields
    ensures r[|fields|] == Ied("", "", Number(|fields| + 1), "", "")
  {
    fields + [Ied("", "", Number(|fields| + 1), "", "")]
  }

  /** Copying and adding keep a numbered list numbered. */
  lemma AppendKeepsNumbering(fields: seq<Ied>, k: nat)
    requires Numbered(fields)
    ensures Numbered(AppendBlank(fields))
    ensures k < |fields| ==> Numbered(AppendCopy(fields, k))
  {
  }

  /** Numbering by `fields.length + 1` can repeat an address: after the
      first of a numbered list is removed, the next added IED gets the
      address the last one already has. */
  lemma RemoveThenAddRepeatsAddress(fields: seq<Ied>)
    requires Numbered(fields) && |fields| >= 2
    ensures var after := AppendBlank(RemoveAt(fields, 0));
            after[|after| - 2].address == after[|after| - 1].address
  {
    var g := RemoveAt(fields, 0);
    assert g[|g| - 1] == fields[|fields| - 1];
  }

  class IedArrayOutput {
    var saidas: seq<Connection>
    const nestIndex: nat

    ghost predicate Valid()
      reads this
    {
      nestIndex < |saidas|
    }

    /** `fields`: the IEDs of this output connection. */
    function Fields(): seq<Ied>
      reads this
      requires Valid()
    {
      saidas[nestIndex].ieds
    }

    constructor (saidas: seq<Connection>, nestIndex: nat)
      requires nestIndex < |saidas|
      ensures Valid() && this.saidas == saidas && this.nestIndex == nestIndex
    {
      this.saidas := saidas;
      this.nestIndex := nestIndex;
    }

    /** The field array's `append(item)`. */
    method Append(item: Ied)
      requires Valid()
      modifies this
      ensures Valid()
      ensures saidas == InputIeds.WithIeds(old(saidas), nestIndex, old(Fields()) + [item])
    {
      saidas := InputIeds.WithIeds(saidas, nestIndex, Fields() + [item]);
    }

    /** The field array's `remove()` with no index: clear the list. */
    method RemoveAll()
      requires Valid()
      modifies this
      ensures Valid()
      ensures saidas == InputIeds.WithIeds(old(saidas), nestIndex, [])
    {
      saidas := InputIeds.WithIeds(saidas, nestIndex, []);
    }

    /** The remove button of item `k`: `remove(k)`. */
    method Remove(k: nat)
      requires Valid() && k < |Fields()|
      modifies this
      ensures Valid()
      ensures saidas == InputIeds.WithIeds(old(saidas), nestIndex, RemoveAt(old(Fields()), k))
    {
      saidas := InputIeds.WithIeds(saidas, nestIndex, RemoveAt(Fields(), k));
    }

    /** `copyIed(index)`: when `fields[index]` exists, append a copy of it
        addressed `fields.length + 1`; otherwise nothing happens. */
    method CopyIed(index: int)
      requires Valid()
      modifies this
      ensures Valid()
      ensures 0 <= index < |old(Fields())| ==>
                saidas == InputIeds.WithIeds(old(saidas), nestIndex, AppendCopy(old(Fields()), index))
      ensures !(0 <= index < |old(Fields())|) ==> saidas == old(saidas)
    {
      var fields := Fields();
      if 0 <= index < |fields| {
        var current := fields[index];
        Append(Ied(current.name, current.manufacturer, Number(|fields| + 1), current.modules, current.optional));
      }
    }

    /** "Adicionar IED". */
    method AddIed()
      requires Valid()
      modifies this
      ensures Valid()
      ensures saidas == InputIeds.WithIeds(old(saidas), nestIndex, AppendBlank(old(Fields())))
    {
      Append(Ied("", "", Number(|Fields()| + 1), "", ""));
    }

    /** `replicateInput`: clear the list, then append every input IED in
        order with address index + 1. With no stored inputs the list is
        left empty. */
    method ReplicateInput(defaultIeds: Option<seq<Ied>>)
      requires Valid()
      modifies this
      ensures Valid()
      ensures saidas == InputIeds.WithIeds(old(saidas), nestIndex, Replicated(defaultIeds.GetOr([])))
    {
      RemoveAll();
      var d := defaultIeds.GetOr([]);
      var i := 0;
      while i < |d|
        invariant 0 <= i <= |d| && Valid()
        invariant saidas == InputIeds.WithIeds(old(saidas), nestIndex, Replicated(d[..i]))
      {
        var ied := d[i];
        Append(Ied(ied.name, ied.manufacturer, Number(i + 1), ied.modules, ied.optional));
        assert Replicated(d[..i + 1]) == Replicated(d[..i]) + [Readdressed(d[i], i + 1)];
        i := i + 1;
      }
      assert d[..i] == d;
    }

    /** The effect: with inputs stored and an empty list, replicate. */
    method AutoReplicate(defaultIeds: Option<seq<Ied>>)
      requires Valid()
      modifies this
      ensures Valid()
      ensures defaultIeds.Some? && old(Fields()) == [] ==>
                saidas == InputIeds.WithIeds(old(saidas), nestIndex, Replicated(defaultIeds.value))
      ensures !(defaultIeds.Some? && old(Fields()) == []) ==> saidas == old(saidas)
    {
      if defaultIeds.Some? && |Fields()| == 0 {
        ReplicateInput(defaultIeds);
      }
    }

    /** The remove button of item `k` followed by the render it causes.
        `defaultIeds` is rebuilt by a `flatMap` on every render, so the
        effect that depends on it runs again after each change: removing
        the only remaining item while inputs are stored refills the list
        with the replicated inputs. */
    method RemoveThenRender(k: nat, defaultIeds: Option<seq<Ied>>)
      requires Valid() && k < |Fields()|
      modifies this
      ensures Valid()
      ensures defaultIeds.Some? && |old(Fields())| == 1 ==>
                saidas == InputIeds.WithIeds(old(saidas), nestIndex, Replicated(defaultIeds.value))
      ensures !(defaultIeds.Some? && |old(Fields())| == 1) ==>
                saidas == InputIeds.WithIeds(old(saidas), nestIndex, RemoveAt(old(Fields()), k))
    {
      Remove(k);
      AutoReplicate(defaultIeds);
    }

    /** The name select of item `k`, with `pool` the editor's `allIeds`. */
    method ChooseName(k: nat, value: string, pool: seq<IedRef>)
      requires Valid() && k < |Fields()|
      modifies this
      ensures Valid()
      ensures saidas == InputIeds.WithIeds(old(saidas), nestIndex,
                                           old(Fields())[k := InputIeds.Renamed(old(Fields())[k], value, pool)])
      ensures ModulesInput in ItemInputs(Fields()[k]) <==> ModulesFieldShown(value)
      ensures forall j :: 0 <= j < |Fields()| && j != k ==> ItemInputs(Fields()[j]) == ItemInputs(old(Fields())[j])
    {
      var ieds := Fields();
      var item := ieds[k].(name := value);
      var selected := FindIed(pool, value);
      if selected.Some? {
        item := item.(manufacturer := selected.value.fabricante);
      }
      saidas := InputIeds.WithIeds(saidas, nestIndex, ieds[k := item]);
    }
  }
}
