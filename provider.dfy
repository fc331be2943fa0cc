/**
 * The HPE provider (internal/provider/provider.go): a composite of
 * sub-providers. Each sub-provider contributes one list block to the
 * provider schema, is handed its own block list at Configure, and adds its
 * resources and data sources to the provider's.
 */
module Provider {
  import opened Framework
  import Morpheus

  /** What the provider asks of a sub-provider: its name, block schema, resources and data sources. */
  datatype SubProviderView = SubProviderView(name: string, schema: map<string, Attribute>,
                                             resources: seq<string>, dataSources: seq<string>)

  /** The Morpheus sub-provider as the provider sees it. */
  function MorpheusView(): (v: SubProviderView)
    ensures v.name == Morpheus.SubProviderName && v.schema == Morpheus.GetSchema()
    ensures v.resources == Morpheus.GetResources() && v.dataSources == Morpheus.GetDataSources()
  {
    SubProviderView(Morpheus.GetName(), Morpheus.GetSchema(), Morpheus.GetResources(), Morpheus.GetDataSources())
  }

  datatype AttrMap = AttrMap(name: string, attributes: map<string, Attribute>)

  datatype ListValidator = SizeBetween(min: nat, max: nat)

  datatype Block = ListNestedBlock(attributes: map<string, Attribute>, validators: seq<ListValidator>)

  datatype ProviderMetadata = ProviderMetadata(typeName: string, version: string)

  /** A sub-provider's Configure call: the name it was asked under and the block list it was given. */
  datatype ConfigureCall<B> = ConfigureCall(name: string, blocks: seq<B>)

  /** The index of the last attribute map with this name, or -1 when there is none. */
  function LastNamed(attrmaps: seq<AttrMap>, name: string): (i: int)
    ensures -1 <= i < |attrmaps|
    ensures i == -1 <==> forall j :: 0 <= j < |attrmaps| ==> attrmaps[j].name != name
    ensures i >= 0 ==> attrmaps[i].name == name && forall j :: i < j < |attrmaps| ==> attrmaps[j].name != name
    decreases |attrmaps|
  {
    if attrmaps == [] then -1
    else if attrmaps[|attrmaps| - 1].name == name then |attrmaps| - 1
    else LastNamed(attrmaps[..|attrmaps| - 1], name)
  }

  /**
   * `createListNestedBlock`: one list block per name, holding at most one
   * element; when two maps share a name the later one wins.
   */
  method CreateListNestedBlock(attrmaps: seq<AttrMap>) returns (blocks: map<string, Block>)
    ensures blocks.Keys == set j | 0 <= j < |attrmaps| :: attrmaps[j].name
    ensures forall n :: n in blocks ==>
      LastNamed(attrmaps, n) >= 0
      && blocks[n] == ListNestedBlock(attrmaps[LastNamed(attrmaps, n)].attributes, [SizeBetween(0, 1)])
  {
    blocks := map[];
    var i := 0;
    while i < |attrmaps|
      invariant 0 <= i <= |attrmaps|
      invariant blocks.Keys == set j | 0 <= j < i :: attrmaps[j].name
      invariant forall n :: n in blocks ==>
        LastNamed(attrmaps[..i], n) >= 0
        && blocks[n] == ListNestedBlock(attrmaps[LastNamed(attrmaps[..i], n)].attributes, [SizeBetween(0, 1)])
    {
      assert attrmaps[..i + 1][..i] == attrmaps[..i];
      blocks := blocks[attrmaps[i].name := ListNestedBlock(attrmaps[i].attributes, [SizeBetween(0, 1)])];
      i := i + 1;
    }
    assert attrmaps[..i] == attrmaps;
  }

  /** The provider's sub-providers' names and schemas, in order. */
  function AttrMaps(subs: seq<SubProviderView>): (a: seq<AttrMap>)
    ensures |a| == |subs| && forall i :: 0 <= i < |subs| ==> a[i] == AttrMap(subs[i].name, subs[i].schema)
  {
    if subs == [] then [] else AttrMaps(subs[..|subs| - 1]) + [AttrMap(subs[|subs| - 1].name, subs[|subs| - 1].schema)]
  }

  /** The block list each sub-provider's Configure reads: its entry in the configuration, or none. */
  function BlocksNamed<B>(config: map<string, seq<B>>, name: string): seq<B>
  {
    if name in config then config[name] else []
  }

  /** Concatenation of a sequence of lists, in order. */
  function Concat<T>(xss: seq<seq<T>>): seq<T>
    decreases |xss|
  {
    if xss == [] then [] else Concat(xss[..|xss| - 1]) + xss[|xss| - 1]
  }

  lemma {:induction false} ConcatAppend<T>(a: seq<seq<T>>, b: seq<seq<T>>)
    ensures Concat(a + b) == Concat(a) + Concat(b)
    decreases |b|
  {
    if b == [] {
      assert a + b == a;
    } else {
      var b' := b[..|b| - 1];
      assert (a + b)[..|a + b| - 1] == a + b';
      ConcatAppend(a, b');
    }
  }

  /**
   * Each list appears whole and in its place in the concatenation: list `k`
   * starts where the lists before it end.
   */
  lemma {:induction false} ConcatPlacesEachList<T>(xss: seq<seq<T>>, k: nat)
    requires k < |xss|
    ensures |Concat(xss[..k])| + |xss[k]| <= |Concat(xss)|
    ensures Concat(xss)[|Concat(xss[..k])|..|Concat(xss[..k])| + |xss[k]|] == xss[k]
  {
    assert xss == xss[..k] + ([xss[k]] + xss[k + 1..]);
    ConcatAppend(xss[..k], [xss[k]] + xss[k + 1..]);
    ConcatAppend([xss[k]], xss[k + 1..]);
    assert Concat([xss[k]]) == xss[k] by {
      assert [xss[k]][..0] == [];
    }
  }

  /** The length of a concatenation is the sum of the lengths. */
  function TotalLength<T>(xss: seq<seq<T>>): nat
    decreases |xss|
  {
    if xss == [] then 0 else TotalLength(xss[..|xss| - 1]) + |xss[|xss| - 1]|
  }

  lemma {:induction false} ConcatLength<T>(xss: seq<seq<T>>)
    ensures |Concat(xss)| == TotalLength(xss)
    decreases |xss|
  {
    if xss != [] {
      ConcatLength(xss[..|xss| - 1]);
    }
  }

  function ResourceLists(subs: seq<SubProviderView>): (r: seq<seq<string>>)
    ensures |r| == |subs| && forall i :: 0 <= i < |subs| ==> r[i] == subs[i].resources
  {
    seq(|subs|, i requires 0 <= i < |subs| => subs[i].resources)
  }

  function DataSourceLists(subs: seq<SubProviderView>): (r: seq<seq<string>>)
    ensures |r| == |subs| && forall i :: 0 <= i < |subs| ==> r[i] == subs[i].dataSources
  {
    seq(|subs|, i requires 0 <= i < |subs| => subs[i].dataSources)
  }

  /** `HPEProvider`, as built by `New(version, subproviders...)`. */
  datatype HPEProvider = HPEProvider(version: string, subproviders: seq<SubProviderView>)
  {
    function Metadata(): (m: ProviderMetadata)
      ensures m.typeName == "hpe" && m.version == version
    {
      ProviderMetadata("hpe", version)
    }

    /** `Schema`: one block per sub-provider name, holding that sub-provider's schema. */
    method Schema() returns (blocks: map<string, Block>)
      ensures blocks.Keys == set j | 0 <= j < |subproviders| :: subproviders[j].name
      ensures forall n :: n in blocks ==>
        LastNamed(AttrMaps(subproviders), n) >= 0
        && blocks[n] == ListNestedBlock(subproviders[LastNamed(AttrMaps(subproviders), n)].schema, [SizeBetween(0, 1)])
    {
      var a: seq<AttrMap> := [];
      var i := 0;
      while i < |subproviders|
        invariant 0 <= i <= |subproviders|
        invariant a == AttrMaps(subproviders[..i])
      {
        assert subproviders[..i + 1][..i] == subproviders[..i];
        a := a + [AttrMap(subproviders[i].name, subproviders[i].schema)];
        i := i + 1;
      }
      assert subproviders[..i] == subproviders;
      var am := AttrMaps(subproviders);
      assert (set j | 0 <= j < |am| :: am[j].name) == set j | 0 <= j < |subproviders| :: subproviders[j].name;
      blocks := CreateListNestedBlock(a);
    }

    /**
     * `Configure`: every sub-provider, in order, is handed the block list
     * stored under its name. What the sub-providers return is discarded.
     */
    method Configure<B>(config: map<string, seq<B>>) returns (calls: seq<ConfigureCall<B>>)
      ensures |calls| == |subproviders|
      ensures forall i :: 0 <= i < |subproviders| ==>
        calls[i] == ConfigureCall(subproviders[i].name, BlocksNamed(config, subproviders[i].name))
    {
      calls := [];
      var i := 0;
      while i < |subproviders|
        invariant 0 <= i <= |subproviders|
        invariant |calls| == i
        invariant forall k :: 0 <= k < i ==>
          calls[k] == ConfigureCall(subproviders[k].name, BlocksNamed(config, subproviders[k].name))
      {
        var name := subproviders[i].name;
        calls := calls + [ConfigureCall(name, BlocksNamed(config, name))];
        i := i + 1;
      }
    }

    /** `Resources`: the sub-providers' resources, concatenated in order. */
    method Resources() returns (r: seq<string>)
      ensures r == Concat(ResourceLists(subproviders))
    {
      r := [];
      var i := 0;
      while i < |subproviders|
        invariant 0 <= i <= |subproviders|
        invariant r == Concat(ResourceLists(subproviders)[..i])
      {
        assert ResourceLists(subproviders)[..i + 1][..i] == ResourceLists(subproviders)[..i];
        r := r + subproviders[i].resources;
        i := i + 1;
      }
      assert ResourceLists(subproviders)[..i] == ResourceLists(subproviders);
    }

    /** `DataSources`: the sub-providers' data sources, concatenated in order. */
    method DataSources() returns (r: seq<string>)
      ensures r == Concat(DataSourceLists(subproviders))
    {
      r := [];
      var i := 0;
      while i < |subproviders|
        invariant 0 <= i <= |subproviders|
        invariant r == Concat(DataSourceLists(subproviders)[..i])
      {
        assert DataSourceLists(subproviders)[..i + 1][..i] == DataSourceLists(subproviders)[..i];
        r := r + subproviders[i].dataSources;
        i := i + 1;
      }
      assert DataSourceLists(subproviders)[..i] == DataSourceLists(subproviders);
    }
  }

  /** A single list concatenates to itself. */
  lemma ConcatSingle<T>(xs: seq<T>)
    ensures Concat([xs]) == xs
  {
    assert [xs][..0] == [];
  }

  /** The shipped provider, with the Morpheus sub-provider alone, registers the user and role resources and the group data source. */
  lemma {:induction false} MorpheusOnlyRegistrations(version: string)
    ensures Concat(ResourceLists(HPEProvider(version, [MorpheusView()]).subproviders)) == ["morpheus_user", "morpheus_role"]
    ensures Concat(DataSourceLists(HPEProvider(version, [MorpheusView()]).subproviders)) == ["morpheus_group"]
  {
    var v := MorpheusView();
    assert ResourceLists([v]) == [v.resources];
    assert DataSourceLists([v]) == [v.dataSources];
    ConcatSingle(v.resources);
    ConcatSingle(v.dataSources);
  }
}
