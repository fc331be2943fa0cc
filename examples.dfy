/**
 * The documentation-example renderer (testhelpers/examples.go): template
 * arguments come as key/value pairs. Reading the template file is a
 * parameter; parsing and executing the template are not modelled, so the
 * rendering result is the template text with the data map it is executed on.
 */
module Examples {
  import opened Wrappers
  import Text

  const PairsError := "arguments must be space separated pairs in the format \"Key\" \"value\""

  /** What the template is executed on. */
  datatype RenderInput = RenderInput(template: string, data: map<string, string>)

  /** The data map of an even number of arguments, pair by pair, a later pair overwriting an earlier key. */
  function PairsToMap(args: seq<string>): map<string, string>
    requires |args| % 2 == 0
    decreases |args|
  {
    if args == [] then map[]
    else PairsToMap(args[..|args| - 2])[args[|args| - 2] := args[|args| - 1]]
  }

  /** The keys of the data map are exactly the even-index arguments. */
  lemma {:induction false} PairsKeys(args: seq<string>)
    requires |args| % 2 == 0
    ensures PairsToMap(args).Keys == set i | 0 <= i < |args| && i % 2 == 0 :: args[i]
    decreases |args|
  {
    if args != [] {
      var init := args[..|args| - 2];
      PairsKeys(init);
      assert (set i | 0 <= i < |args| && i % 2 == 0 :: args[i])
          == (set i | 0 <= i < |init| && i % 2 == 0 :: init[i]) + {args[|args| - 2]};
    }
  }

  /**
   * Each key maps to the value that follows its last occurrence as a key:
   * `args[i]` is a key, `args[i + 1]` its value, and no later pair has it.
   */
  lemma {:induction false} PairsLastWins(args: seq<string>, i: nat)
    requires |args| % 2 == 0 && i < |args| && i % 2 == 0
    requires forall j :: i < j < |args| && j % 2 == 0 ==> args[j] != args[i]
    ensures args[i] in PairsToMap(args) && PairsToMap(args)[args[i]] == args[i + 1]
    decreases |args|
  {
    var init := args[..|args| - 2];
    if i < |args| - 2 {
      assert args[|args| - 2] != args[i];
      PairsLastWins(init, i);
    }
  }

  /**
   * `renderExample`: an odd number of arguments is an error before any file
   * is read; otherwise the template file is read and paired with the data map.
   */
  method RenderExample(name: string, args: seq<string>, readFile: string -> Result<string>)
    returns (r: Result<RenderInput>, filesRead: seq<string>)
    ensures |args| % 2 != 0 ==> r == Err(PairsError) && filesRead == []
    ensures |args| % 2 == 0 ==> filesRead == [name]
    ensures |args| % 2 == 0 && readFile(name).Err? ==> r == Err(readFile(name).error)
    ensures |args| % 2 == 0 && readFile(name).Ok? ==> r == Ok(RenderInput(readFile(name).value, PairsToMap(args)))
  {
    filesRead := [];
    if |args| % 2 != 0 {
      return Err(PairsError), filesRead;
    }
    var bs := readFile(name);
    filesRead := filesRead + [name];
    if bs.Err? {
      return Err(bs.error), filesRead;
    }
    var data: map<string, string> := map[];
    var i := 0;
    while i < |args| - 1
      invariant 0 <= i <= |args| && i % 2 == 0
      invariant data == PairsToMap(args[..i])
    {
      assert args[..i + 2][..i] == args[..i];
      data := data[args[i] := args[i + 1]];
      i := i + 2;
    }
    assert args[..i] == args;
    r := Ok(RenderInput(bs.value, data));
  }

  /** The file WriteExample writes: the template name without a trailing ".tmpl". */
  function OutputName(name: string): (out: string)
    ensures |name| >= 5 && name[|name| - 5..] == ".tmpl" ==> out + ".tmpl" == name
    ensures !(|name| >= 5 && name[|name| - 5..] == ".tmpl") ==> out == name
  {
    Text.TrimSuffix(name, ".tmpl")
  }

  /** `WriteExample`: renders, then names the output after the template. A render error is the source's panic. */
  method WriteExample(name: string, args: seq<string>, readFile: string -> Result<string>)
    returns (r: Result<(string, RenderInput)>)
    ensures |args| % 2 != 0 ==> r == Err(PairsError)
    ensures |args| % 2 == 0 ==> (r.Ok? <==> readFile(name).Ok?)
    ensures |args| % 2 == 0 && readFile(name).Err? ==> r == Err(readFile(name).error)
    ensures r.Ok? ==>
      r.value.0 == OutputName(name) && readFile(name).Ok?
      && r.value.1 == RenderInput(readFile(name).value, PairsToMap(args))
  {
    var text, _ := RenderExample(name, args, readFile);
    if text.Err? {
      return Err(text.error);
    }
    r := Ok((OutputName(name), text.value));
  }
}
