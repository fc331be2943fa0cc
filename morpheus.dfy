/**
 * The Morpheus sub-provider (internal/subproviders/morpheus/morpheus.go):
 * its name, its block schema, the resources and data sources it registers,
 * and the Configure step that turns the `morpheus` block into a client factory.
 */
module Morpheus {
  import opened Wrappers
  import opened Framework
  import CF = ClientFactory

  const SubProviderName := "morpheus"

  /**
   * The function that turns a block into a client factory: the default one
   * calls `clientfactory.New(m)`; a caller may supply one that passes factory
   * options as well.
   */
  datatype FactoryBuilder = DefaultBuilder | BuilderWithOptions(opts: seq<CF.FactoryOption>)

  function BuilderOptions(b: FactoryBuilder): seq<CF.FactoryOption>
  {
    if b.DefaultBuilder? then [] else b.opts
  }

  datatype SubProviderOption = WithClientFactory(builder: FactoryBuilder)

  datatype SubProvider = SubProvider(newClientFactory: FactoryBuilder)
  {
    /**
     * `Configure`: `blocks` is what the provider writes for the `morpheus`
     * block list. No block configures nothing, one block yields its client
     * factory, more than one is an error.
     */
    method Configure(blocks: seq<CF.SubModel>) returns (data: Option<CF.ClientFactory>, err: Option<string>)
      ensures |blocks| == 0 ==> data == None && err == None
      ensures |blocks| == 1 ==> data == Some(CF.FactoryFor(blocks[0], BuilderOptions(newClientFactory))) && err == None
      ensures |blocks| > 1 ==> data == None && err == Some("invalid morpheus provider block length")
    {
      if |blocks| == 0 {
        data, err := None, None;
      } else if |blocks| == 1 {
        var cf := CF.New(blocks[0], BuilderOptions(newClientFactory));
        data, err := Some(cf), None;
      } else {
        data, err := None, Some("invalid morpheus provider block length");
      }
    }
  }

  /** `New`: the default builder, overridden by each WithClientFactory option in turn. */
  method New(opts: seq<SubProviderOption>) returns (sp: SubProvider)
    ensures opts == [] ==> sp.newClientFactory == DefaultBuilder
    ensures opts != [] ==> sp.newClientFactory == opts[|opts| - 1].builder
  {
    sp := SubProvider(DefaultBuilder);
    var i := 0;
    while i < |opts|
      invariant 0 <= i <= |opts|
      invariant i == 0 ==> sp.newClientFactory == DefaultBuilder
      invariant i > 0 ==> sp.newClientFactory == opts[i - 1].builder
    {
      sp := sp.(newClientFactory := opts[i].builder);
      i := i + 1;
    }
  }

  function GetName(): (name: string)
    ensures name == SubProviderName
  {
    SubProviderName
  }

  /** The `morpheus` block's attributes and their validators. */
  function GetSchema(): map<string, Attribute>
  {
    map[
      "url" := Attribute(StringAttr, true, false, false,
                         [AnyOf([AlsoRequires("username"), AlsoRequires("access_token")])]),
      "username" := Attribute(StringAttr, false, true, false, [AlsoRequires("password")]),
      "password" := Attribute(StringAttr, false, true, true, [AlsoRequires("username")]),
      "access_token" := Attribute(StringAttr, false, true, true,
                                  [ConflictsWith("username"), ConflictsWith("password")]),
      "insecure" := Attribute(BoolAttr, false, true, false, [])
    ]
  }

  /**
   * The block shapes the schema is meant to accept: a URL, and either a
   * username with its password or an access token, never a token together
   * with either credential; `insecure` is free.
   */
  predicate WellShaped(present: set<string>)
  {
    && present <= {"url", "username", "password", "access_token", "insecure"}
    && "url" in present
    && ("username" in present <==> "password" in present)
    && ("access_token" in present ==> "username" !in present && "password" !in present)
    && ("username" in present || "access_token" in present)
  }

  /** The schema's validators accept exactly the well-shaped blocks. */
  lemma {:induction false} SchemaAcceptsExactly(present: set<string>)
    ensures Accepts(GetSchema(), present) <==> WellShaped(present)
  {
    var s := GetSchema();
    var alts := [AlsoRequires("username"), AlsoRequires("access_token")];
    assert s.Keys == {"url", "username", "password", "access_token", "insecure"};
    assert s["url"].validators == [AnyOf(alts)];
    if Accepts(s, present) {
      assert "url" in present by { assert s["url"].required; }
      assert Holds(AnyOf(alts), present) by { assert Holds(s["url"].validators[0], present); }
      if "username" in present {
        assert Holds(s["username"].validators[0], present);
      }
      if "password" in present {
        assert Holds(s["password"].validators[0], present);
      }
      if "access_token" in present {
        assert Holds(s["access_token"].validators[0], present);
        assert Holds(s["access_token"].validators[1], present);
      }
    }
    if WellShaped(present) {
      if "username" in present {
        assert Holds(alts[0], present);
      } else {
        assert Holds(alts[1], present);
      }
      assert Holds(AnyOf(alts), present);
    }
  }

  /** Type-name suffixes of the registered resources, in order. */
  function GetResources(): (r: seq<string>)
    ensures r == ["morpheus_user", "morpheus_role"]
  {
    ["morpheus_user", "morpheus_role"]
  }

  /** Type-name suffixes of the registered data sources: only the group data source. */
  function GetDataSources(): (r: seq<string>)
    ensures r == ["morpheus_group"]
  {
    ["morpheus_group"]
  }
}
