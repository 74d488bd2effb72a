/**
 * The IED editor mounted under one connection (`IedArray` in
 * `request-form/ieds.tsx`). It edits the field array
 * `entradas[nestIndex].ieds` of its form in place: append a blank IED,
 * remove one, and pick a name from the catalog, which fills in the
 * manufacturer.
 */
module InputIeds {
  import opened Seqs
  import opened FormTypes

  /** `[...ied.ied, ...ied.ied_terceiros]`: the own catalog, then the
      third-party one. */
  function SelectablePool(own: seq<IedRef>, thirdParty: seq<IedRef>): (pool: seq<IedRef>)
    ensures |pool| == |own| + |thirdParty|
    ensures pool[..|own|] == own && pool[|own|..] == thirdParty
  {
    own + thirdParty
  }

  /** The manufacturer chosen for `name`: the first own-catalog entry with
      that name, else the first third-party one, else none. */
  lemma ManufacturerLookupOrder(own: seq<IedRef>, thirdParty: seq<IedRef>, name: string)
    ensures FindIed(own, name).Some? ==> FindIed(SelectablePool(own, thirdParty), name) == FindIed(own, name)
    ensures FindIed(own, name).None? ==> FindIed(SelectablePool(own, thirdParty), name) == FindIed(thirdParty, name)
  {
    FindIedPrefersFirstCatalog(own, thirdParty, name);
  }

  const BlankIed: Ied := Ied("", "", Typed(""), "", "")

  /** `conns` with the IED list of connection `i` replaced. */
  function WithIeds(conns: seq<Connection>, i: nat, ieds: seq<Ied>): (r: seq<Connection>)
    requires i < |conns|
    ensures |r| == |conns| && r[i].ieds == ieds
    ensures forall j :: 0 <= j < |conns| && j != i ==> r[j] == conns[j]
  {
    conns[i := conns[i].(ieds := ieds)]
  }

  /** The IED after its name select changed to `value`: the name is set and,
      when the pool has an entry with that name, the manufacturer too. */
  function Renamed(ied: Ied, value: string, pool: seq<IedRef>): (r: Ied)
    ensures r.name == value
    ensures r.address == ied.address && r.modules == ied.modules && r.optional == ied.optional
    ensures FindIed(pool, value).None? ==> r.manufacturer == ied.manufacturer
    ensures FindIed(pool, value).Some? ==> r.manufacturer == FindIed(pool, value).value.fabricante
  {
    match FindIed(pool, value)
    case None => ied.(name := value)
    case Some(e) => ied.(name := value, manufacturer := e.fabricante)
  }

  /** An element react-hook-form had to create: every field undefined,
      read here as empty, and no IEDs. */
  const AbsentConnection: Connection := Connection("", "", "", "", "", "", "", "", [])

  /** `conns` extended, when it is too short, so that slot `i` exists: the
      elements a deep `set` at index `i` creates are absent connections. */
  function WithSlot(conns: seq<Connection>, i: nat): (r: seq<Connection>)
    ensures i < |r| && |r| == if i < |conns| then |conns| else i + 1
    ensures forall j :: 0 <= j < |conns| ==> r[j] == conns[j]
    ensures forall j :: |conns| <= j < |r| ==> r[j] == AbsentConnection
  {
    if i < |conns| then conns else conns + seq(i + 1 - |conns|, _ => AbsentConnection)
  }

  /** In the outputs form no `entradas` exist, so the first "Adicionar IED"
      creates an array reaching `nestIndex`, whose only IEDs are the blank
      one in slot `nestIndex`. */
  lemma FirstAddAtOutputsMount(nestIndex: nat)
    ensures var r := WithIeds(WithSlot([], nestIndex), nestIndex, [BlankIed]);
            && |r| == nestIndex + 1
            && r[nestIndex].ieds == [BlankIed]
            && forall j :: 0 <= j < nestIndex ==> r[j] == AbsentConnection
  {
  }

  class IedArray {
    /** The form's `entradas` array; it may not reach `nestIndex` yet, and
        in the outputs form, where the editor is mounted, it starts empty. */
    var entradas: seq<Connection>
    const nestIndex: nat

    /** `fields`: the IEDs of the connection this editor is mounted under;
        a path that does not exist reads as an empty field array. */
    function Fields(): (r: seq<Ied>)
      reads this
      ensures nestIndex >= |entradas| ==> r == []
    {
      if nestIndex < |entradas| then entradas[nestIndex].ieds else []
    }

    constructor (entradas: seq<Connection>, nestIndex: nat)
      ensures this.entradas == entradas && this.nestIndex == nestIndex
    {
      this.entradas := entradas;
      this.nestIndex := nestIndex;
    }

    /** "Adicionar IED": `append` of an IED whose five fields are empty. The
        first append on a missing path creates `entradas[nestIndex]`. */
    method AddIed()
      modifies this
      ensures entradas == WithIeds(WithSlot(old(entradas), nestIndex), nestIndex, old(Fields()) + [BlankIed])
      ensures Fields() == old(Fields()) + [BlankIed]
      ensures forall j :: 0 <= j < |old(entradas)| && j != nestIndex ==> entradas[j] == old(entradas)[j]
    {
      entradas := WithIeds(WithSlot(entradas, nestIndex), nestIndex, Fields() + [BlankIed]);
    }

    /** The remove button of item `k`: `remove(k)`. */
    method Remove(k: nat)
      requires k < |Fields()|
      modifies this
      ensures nestIndex < |entradas|
      ensures entradas == WithIeds(old(entradas), nestIndex, RemoveAt(old(Fields()), k))
    {
      entradas := WithIeds(entradas, nestIndex, RemoveAt(Fields(), k));
    }

    /** The name select of item `k`: `field.onChange(value)`, then
        `setValue(...manufacturer, selectedIed.fabricante)` when the
        catalog has that name. */
    method ChooseName(k: nat, value: string, own: seq<IedRef>, thirdParty: seq<IedRef>)
      requires k < |Fields()|
      modifies this
      ensures nestIndex < |entradas|
      ensures entradas == WithIeds(old(entradas), nestIndex,
                                   old(Fields())[k := Renamed(old(Fields())[k], value, SelectablePool(own, thirdParty))])
    {
      var ieds := Fields();
      var item := ieds[k].(name := value);
      var selected := FindIed(SelectablePool(own, thirdParty), value);
      if selected.Some? {
        item := item.(manufacturer := selected.value.fabricante);
      }
      entradas := WithIeds(entradas, nestIndex, ieds[k := item]);
    }
  }
}
