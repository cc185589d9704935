/** modelKey of internal/inference/onnx_runtime.go and the unchecked key of internal/model/model.go. */
module ModelKeys {
  import opened Values

  function ModelKey(id: string, version: string): Result<string> {
    if id == "" then Err(EmptyModelId)
    else if ':' in id then Err(ColonInId)
    else if ':' in version then Err(ColonInVersion)
    else if version == "" then Ok(id)
    else Ok(id + ":" + version)
  }

  predicate Accepted(id: string, version: string) {
    id != "" && ':' !in id && ':' !in version
  }

  /** The manager builds its key without looking. */
  function ManagerKey(id: string, version: string): string {
    if version != "" then id + ":" + version else id
  }

  lemma AcceptedKey(id: string, version: string)
    ensures ModelKey(id, version).Ok? <==> Accepted(id, version)
    ensures Accepted(id, version) ==> ModelKey(id, version) == Ok(ManagerKey(id, version))
  {
  }

  /** A key is refused for its first fault: no id, then a colon in the id, then one in the version.  Otherwise it
      is the id, followed by ':' and the version if there is one. */
  lemma KeySays(id: string, version: string)
    ensures ModelKey(id, version) == Err(EmptyModelId) <==> |id| == 0
    ensures ModelKey(id, version) == Err(ColonInId) <==> ':' in id
    ensures ModelKey(id, version) == Err(ColonInVersion) <==> |id| > 0 && ':' !in id && ':' in version
    ensures ModelKey(id, version).Ok? <==> |id| > 0 && ':' !in id && ':' !in version
    ensures ModelKey(id, version).Ok? ==> IsKey(ModelKey(id, version).value, id, version)
    ensures IsKey(ManagerKey(id, version), id, version)
  {
    assert ':' in id ==> |id| > 0;
    assert (id + ":" + version)[..|id|] == id;
    assert (id + ":" + version)[|id| + 1..] == version;
  }

  /** key starts with the id; what follows is nothing, or a colon and the version. */
  predicate IsKey(key: string, id: string, version: string) {
    && |id| <= |key| && key[..|id|] == id
    && if version == "" then |key| == |id| else |key| > |id| && key[|id|] == ':' && key[|id| + 1..] == version
  }

  function FirstColon(s: string): (n: nat)
    ensures n <= |s|
  {
    if s == [] || s[0] == ':' then 0 else 1 + FirstColon(s[1..])
  }

  lemma {:induction false} FirstColonAt(a: string, b: string)
    ensures ':' !in a ==> FirstColon(a + ":" + b) == |a|
  {
    if a == [] {
      assert a + ":" + b == ":" + b;
    } else {
      FirstColonAt(a[1..], b);
      assert (a + ":" + b)[1..] == a[1..] + ":" + b;
    }
  }

  /** The first ':' splits an encoded pair again. */
  lemma SplitAtColon(a: string, b: string, c: string, d: string)
    ensures ':' !in a && ':' !in c && a + ":" + b == c + ":" + d ==> a == c && b == d
  {
    FirstColonAt(a, b);
    FirstColonAt(c, d);
    var s, t := a + ":" + b, c + ":" + d;
    assert s[..|a|] == a && s[|a| + 1..] == b;
    assert t[..|c|] == c && t[|c| + 1..] == d;
  }

  function Colons(s: string): nat {
    if s == [] then 0 else (if s[0] == ':' then 1 else 0) + Colons(s[1..])
  }

  lemma {:induction false} ColonsAdd(a: string, b: string)
    ensures Colons(a + b) == Colons(a) + Colons(b)
  {
    if a == [] {
      assert a + b == b;
    } else {
      ColonsAdd(a[1..], b);
      assert (a + b)[1..] == a[1..] + b;
    }
  }

  lemma {:induction false} NoColons(s: string)
    ensures Colons(s) == 0 <==> ':' !in s
  {
    if s != [] {
      NoColons(s[1..]);
      assert s == [s[0]] + s[1..];
    }
  }

  lemma ColonsOfKey(id: string, version: string)
    ensures Colons(ManagerKey(id, version)) == Colons(id) + if version == "" then 0 else 1 + Colons(version)
  {
    ColonsAdd(id, ":" + version);
    ColonsAdd(":", version);
    assert Colons(":") == 1;
    assert id + ":" + version == id + (":" + version);
  }

  /** On accepted pairs the encoding loses nothing. */
  lemma KeyInjective(id1: string, version1: string, id2: string, version2: string)
    requires Accepted(id1, version1) && Accepted(id2, version2)
    ensures ManagerKey(id1, version1) == ManagerKey(id2, version2) <==> id1 == id2 && version1 == version2
  {
    ColonsOfKey(id1, version1);
    ColonsOfKey(id2, version2);
    NoColons(id1);
    NoColons(id2);
    SplitAtColon(id1, version1, id2, version2);
  }

  /** The only rejected pair whose unchecked key is the key of an accepted one: an id that spells
      out "id:version", with no version. */
  lemma RejectedCollision(id: string, version: string, id2: string, version2: string)
    requires !Accepted(id, version) && Accepted(id2, version2)
    ensures ManagerKey(id, version) == ManagerKey(id2, version2)
       <==> version == "" && version2 != "" && id == id2 + ":" + version2
  {
    ColonsOfKey(id, version);
    ColonsOfKey(id2, version2);
    NoColons(id);
    NoColons(version);
    NoColons(id2);
    NoColons(version2);
    SplitAtColon(id, version, id2, version2);
  }
}
