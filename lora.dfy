/**
 * The `--lora-paths` tokens: each is a bare path or a `name=path` pair split
 * at its first '=', and the tokens are inserted in order into a dictionary
 * from adapter name to path.
 */
module Lora {
  import opened Wrappers
  import opened Errors
  import opened Paths

  /** One adapter reference: the name it is registered under and its path. */
  datatype Adapter = Adapter(name: string, path: Path)

  /** Index of the first occurrence of `c` in `s`. */
  function FirstIndex(s: string, c: char): (r: Option<nat>)
    ensures r.None? <==> c !in s
    ensures r.Some? ==> r.value < |s| && s[r.value] == c && c !in s[..r.value]
  {
    if |s| == 0 then None
    else if s[0] == c then Some(0)
    else
      assert s == [s[0]] + s[1..];
      match FirstIndex(s[1..], c)
      case None => None
      case Some(i) =>
        assert s[..i + 1] == [s[0]] + s[1..][..i];
        Some(i + 1)
  }

  /** `token.split("=", 1)` for a token that holds a '='. */
  function SplitAtFirst(token: string): (a: Adapter)
    requires '=' in token
    ensures '=' !in a.name
    ensures a.name + "=" + a.path == token
  {
    var i := FirstIndex(token, '=').value;
    assert token == token[..i] + "=" + token[i + 1..];
    Adapter(token[..i], token[i + 1..])
  }

  /** The adapter a single token denotes: split at the first '=', or the token as both name and path. */
  function AdapterOf(token: string): (a: Adapter)
    ensures '=' in token ==> '=' !in a.name && a.name + "=" + a.path == token
    ensures '=' !in token ==> a.name == token && a.path == token
  {
    if '=' in token then SplitAtFirst(token) else Adapter(token, token)
  }

  /**
   * Splitting inverts joining: for a name without '=', `name=path` splits
   * back into exactly that name and path, whatever '=' the path holds.
   */
  lemma {:induction false} SplitJoin(name: string, path: Path)
    requires '=' !in name
    ensures '=' in name + "=" + path
    ensures SplitAtFirst(name + "=" + path) == Adapter(name, path)
  {
    var token := name + "=" + path;
    assert token[|name|] == '=';
    var a := SplitAtFirst(token);
    assert a.name == token[..|name|] == name;
    assert a.path == token[|name| + 1..] == path;
  }

  /** The dictionary that inserting every token's adapter in order produces. */
  function AdapterMap(tokens: seq<string>): map<string, Path>
  {
    if |tokens| == 0 then map[]
    else
      var a := AdapterOf(tokens[|tokens| - 1]);
      AdapterMap(tokens[..|tokens| - 1])[a.name := a.path]
  }

  /** Inserting one more token sets its name to its path and leaves every other entry as it was. */
  lemma AdapterMapAppend(tokens: seq<string>, token: string)
    ensures var a := AdapterOf(token);
      AdapterMap(tokens + [token]) == AdapterMap(tokens)[a.name := a.path]
  {
    assert (tokens + [token])[..|tokens|] == tokens;
  }

  /** The names in the dictionary are exactly the names of the tokens. */
  lemma {:induction false} AdapterMapKeys(tokens: seq<string>)
    ensures AdapterMap(tokens).Keys == set t | t in tokens :: AdapterOf(t).name
  {
    if |tokens| > 0 {
      var init := tokens[..|tokens| - 1];
      var last := tokens[|tokens| - 1];
      AdapterMapKeys(init);
      assert tokens == init + [last];
      assert (set t | t in tokens :: AdapterOf(t).name)
          == (set t | t in init :: AdapterOf(t).name) + {AdapterOf(last).name};
    }
  }

  /**
   * Last write wins: a name maps to the path of the last token that
   * carries that name.
   */
  lemma {:induction false} AdapterMapLastWins(tokens: seq<string>, i: nat)
    requires i < |tokens|
    requires forall j :: i < j < |tokens| ==> AdapterOf(tokens[j]).name != AdapterOf(tokens[i]).name
    ensures AdapterOf(tokens[i]).name in AdapterMap(tokens)
    ensures AdapterMap(tokens)[AdapterOf(tokens[i]).name] == AdapterOf(tokens[i]).path
  {
    if i < |tokens| - 1 {
      var init := tokens[..|tokens| - 1];
      assert init[i] == tokens[i];
      forall j | i < j < |init|
        ensures AdapterOf(init[j]).name != AdapterOf(init[i]).name
      {
        assert init[j] == tokens[j];
      }
      AdapterMapLastWins(init, i);
    }
  }

  /** Every path in the dictionary is the path of one of the tokens. */
  lemma {:induction false} AdapterMapValues(tokens: seq<string>, name: string)
    requires name in AdapterMap(tokens)
    ensures exists i :: 0 <= i < |tokens| && AdapterOf(tokens[i]) == Adapter(name, AdapterMap(tokens)[name])
  {
    var init := tokens[..|tokens| - 1];
    var last := AdapterOf(tokens[|tokens| - 1]);
    if name != last.name {
      AdapterMapValues(init, name);
      var i :| 0 <= i < |init| && AdapterOf(init[i]) == Adapter(name, AdapterMap(init)[name]);
      assert tokens[i] == init[i];
    } else {
      assert AdapterOf(tokens[|tokens| - 1]) == Adapter(name, AdapterMap(tokens)[name]);
    }
  }

  /** Index of the first token whose path does not exist. */
  function MissingAt(tokens: seq<string>, entries: set<Path>): (r: Option<nat>)
    ensures r.None? <==> forall i :: 0 <= i < |tokens| ==> AdapterOf(tokens[i]).path in entries
    ensures r.Some? ==> r.value < |tokens| && AdapterOf(tokens[r.value]).path !in entries
    ensures r.Some? ==> forall i :: 0 <= i < r.value ==> AdapterOf(tokens[i]).path in entries
  {
    if |tokens| == 0 then None
    else if AdapterOf(tokens[0]).path !in entries then Some(0)
    else
      match MissingAt(tokens[1..], entries)
      case None =>
        assert forall i :: 0 < i < |tokens| ==> tokens[i] == tokens[1..][i - 1];
        None
      case Some(k) =>
        assert forall i :: 0 < i <= k + 1 ==> tokens[i] == tokens[1..][i - 1];
        Some(k + 1)
  }

  /** A missing path preceded only by existing ones is the first missing path. */
  lemma MissingAtFirst(tokens: seq<string>, entries: set<Path>, i: nat)
    requires i < |tokens| && AdapterOf(tokens[i]).path !in entries
    requires forall j :: 0 <= j < i ==> AdapterOf(tokens[j]).path in entries
    ensures MissingAt(tokens, entries) == Some(i)
  {
  }

  /**
   * What the `--lora-paths` action produces: the adapter dictionary when
   * every path exists, otherwise the error for the first missing path.
   */
  function ParseAdapters(tokens: seq<string>, entries: set<Path>): Result<map<string, Path>, Error>
  {
    match MissingAt(tokens, entries)
    case None => Success(AdapterMap(tokens))
    case Some(i) => Failure(SourceNotFound(AdapterOf(tokens[i]).path))
  }

  /**
   * Parsing succeeds exactly when every token's path exists; the result
   * then has one name per distinct token name, and every path in it exists.
   * Otherwise the error names the path of the first token whose path is missing.
   */
  lemma ParseAdaptersSpec(tokens: seq<string>, entries: set<Path>)
    ensures var r := ParseAdapters(tokens, entries);
      && (r.Success? <==> forall i :: 0 <= i < |tokens| ==> AdapterOf(tokens[i]).path in entries)
      && (r.Success? ==> r.value.Keys == (set t | t in tokens :: AdapterOf(t).name))
      && (r.Success? ==> forall name :: name in r.value ==> r.value[name] in entries)
      && (r.Failure? ==>
            exists i :: 0 <= i < |tokens|
              && AdapterOf(tokens[i]).path !in entries
              && (forall j :: 0 <= j < i ==> AdapterOf(tokens[j]).path in entries)
              && r.error == SourceNotFound(AdapterOf(tokens[i]).path))
  {
    var r := ParseAdapters(tokens, entries);
    if r.Success? {
      AdapterMapKeys(tokens);
      forall name | name in r.value
        ensures r.value[name] in entries
      {
        AdapterMapValues(tokens, name);
      }
    }
  }

  /** A `name=path` token denotes that name and path. */
  lemma RenamedAdapter(name: string, path: Path)
    requires '=' !in name
    ensures AdapterOf(name + "=" + path) == Adapter(name, path)
  {
    SplitJoin(name, path);
  }

  /** Two tokens whose paths exist are inserted in order. */
  lemma ParseTwo(first: string, second: string, entries: set<Path>)
    requires AdapterOf(first).path in entries && AdapterOf(second).path in entries
    ensures ParseAdapters([first, second], entries)
         == Success(map[AdapterOf(first).name := AdapterOf(first).path][AdapterOf(second).name := AdapterOf(second).path])
  {
    AdapterMapAppend([], first);
    AdapterMapAppend([first], second);
    assert [first] + [second] == [first, second];
  }

  /** Two renamed adapters whose paths exist give a dictionary with exactly those two entries. */
  lemma TwoRenamedAdapters()
    ensures ParseAdapters(["adapterA=/a/weights", "adapterB=/b/weights"], {"/a/weights", "/b/weights"})
         == Success(map["adapterA" := "/a/weights", "adapterB" := "/b/weights"])
  {
    assert '=' !in "adapterA" && '=' !in "adapterB";
    assert "adapterA=/a/weights" == "adapterA" + "=" + "/a/weights";
    assert "adapterB=/b/weights" == "adapterB" + "=" + "/b/weights";
    RenamedAdapter("adapterA", "/a/weights");
    RenamedAdapter("adapterB", "/b/weights");
    ParseTwo("adapterA=/a/weights", "adapterB=/b/weights", {"/a/weights", "/b/weights"});
  }
}
