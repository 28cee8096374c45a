/**
 * The stylization step of backend/app/utils.py: how `stylize_with_replicate`
 * digs a downloadable address out of whatever the Replicate client returned
 * (`_extract_url`), and how the step ends: the error it raises and the file
 * it writes.  The client, the download and the token are inputs.
 */
module ReplicateOutput {
  import opened Base
  import opened Text

  /**
   * The Python values `_extract_url` meets.  A dictionary is its entries in
   * order; `List` stands for a list or a tuple; an object is its attributes
   * (each the value read, after calling it when it is callable, or the fact
   * that reading or calling raised) together with its `str()`.
   */
  datatype PyValue =
    | Str(s: string)
    | Dict(entries: seq<(string, PyValue)>)
    | List(items: seq<PyValue>)
    | NoneValue
    | Obj(attrs: seq<(string, Attr)>, text: string)

  datatype Attr = Raises | Yields(value: PyValue)

  /** The dictionary keys tried, in order. */
  const UrlKeys := ["url", "output", "image", "file", "result"]
  /** The attribute names tried, in order. */
  const AttrNames := ["url", "get", "download_url", "uri"]

  /** `d.get(key)`. */
  function Get(entries: seq<(string, PyValue)>, key: string): (r: Option<PyValue>)
    ensures r.None? <==> forall j :: 0 <= j < |entries| ==> entries[j].0 != key
    ensures r.Some? ==> exists j :: 0 <= j < |entries| && entries[j] == (key, r.value)
    decreases |entries|
  {
    if entries == [] then None
    else if entries[0].0 == key then Some(entries[0].1)
    else
      var r := Get(entries[1..], key);
      assert forall j :: 1 <= j < |entries| ==> entries[1..][j - 1] == entries[j];
      r
  }

  /** The value found is a string starting with "http". */
  predicate HttpString(o: Option<PyValue>)
  {
    o.Some? && o.value.Str? && StartsWith(o.value.s, Http)
  }

  /** The dictionary pass: the first key, in order, whose value is an "http" string. */
  function FirstHttpValue(entries: seq<(string, PyValue)>, keys: seq<string>): (r: Option<string>)
    ensures r.None? <==> forall j :: 0 <= j < |keys| ==> !HttpString(Get(entries, keys[j]))
    ensures r.Some? ==> exists j :: (0 <= j < |keys| && Get(entries, keys[j]) == Some(Str(r.value))
      && StartsWith(r.value, Http) && forall k :: 0 <= k < j ==> !HttpString(Get(entries, keys[k])))
    decreases |keys|
  {
    if keys == [] then None
    else if HttpString(Get(entries, keys[0])) then Some(Get(entries, keys[0]).value.s)
    else
      var r := FirstHttpValue(entries, keys[1..]);
      assert forall j :: 1 <= j < |keys| ==> keys[1..][j - 1] == keys[j];
      if r.Some? then FirstHttpWitnessShifts(entries, keys, r.value); r else r
  }

  /** The first "http" key of the remaining keys is the first one of all of them when the head key has none. */
  lemma FirstHttpWitnessShifts(entries: seq<(string, PyValue)>, keys: seq<string>, u: string)
    requires keys != [] && !HttpString(Get(entries, keys[0]))
    requires exists j :: (0 <= j < |keys[1..]| && Get(entries, keys[1..][j]) == Some(Str(u))
      && StartsWith(u, Http) && forall k :: 0 <= k < j ==> !HttpString(Get(entries, keys[1..][k])))
    ensures exists j :: (0 <= j < |keys| && Get(entries, keys[j]) == Some(Str(u))
      && StartsWith(u, Http) && forall k :: 0 <= k < j ==> !HttpString(Get(entries, keys[k])))
  {
    var j :| 0 <= j < |keys[1..]| && Get(entries, keys[1..][j]) == Some(Str(u))
      && StartsWith(u, Http) && forall k :: 0 <= k < j ==> !HttpString(Get(entries, keys[1..][k]));
    forall k | 0 <= k < j + 1 ensures !HttpString(Get(entries, keys[k])) {
      if k > 0 {
        assert keys[k] == keys[1..][k - 1];
      }
    }
    assert keys[j + 1] == keys[1..][j];
  }

  /** The position of the first attribute called `name`, or -1 when the object has none. */
  function FindAttr(attrs: seq<(string, Attr)>, name: string): (i: int)
    ensures -1 <= i < |attrs|
    ensures i >= 0 ==> attrs[i].0 == name && forall j :: 0 <= j < i ==> attrs[j].0 != name
    ensures i < 0 ==> forall j :: 0 <= j < |attrs| ==> attrs[j].0 != name
    decreases |attrs|
  {
    if attrs == [] then -1
    else if attrs[0].0 == name then 0
    else
      var i := FindAttr(attrs[1..], name);
      if i < 0 then -1 else i + 1
  }

  /** `_extract_url(obj)`. */
  function Extract(v: PyValue): (r: Option<string>)
    ensures v.Str? ==> r == Some(v.s)
    ensures v.Dict? ==> r == FirstHttpValue(v.entries, UrlKeys)
    ensures v.NoneValue? || v == List([]) ==> r.None?
    decreases v, 1
  {
    match v
    case Str(s) => Some(s)
    // For a dictionary the attribute pass finds only its `get` method, whose
    // call without a key raises, and its `str()` starts with "{".
    case Dict(entries) => FirstHttpValue(entries, UrlKeys)
    // An empty list or tuple has none of the attributes, and prints as "[]" or "()".
    case List(items) => if |items| > 0 then Extract(items[0]) else None
    // `str(None)` is "None".
    case NoneValue => None
    case Obj(_, _) => FromAttributes(v, AttrNames)
  }

  /**
   * One step of the attribute pass: the address the attribute `name` gives,
   * or None when the pass goes on to the next name (no such attribute, a
   * raise, or a value that neither is an "http" string nor holds an address).
   */
  function AttrAnswer(v: PyValue, name: string): (a: Option<string>)
    requires v.Obj?
    ensures a.Some? ==> a.value != ""
    ensures FindAttr(v.attrs, name) < 0 ==> a.None?
    ensures FindAttr(v.attrs, name) >= 0 && v.attrs[FindAttr(v.attrs, name)].1.Raises? ==> a.None?
    ensures var i := FindAttr(v.attrs, name); i >= 0 && v.attrs[i].1.Yields? ==>
      var val := v.attrs[i].1.value;
      && (val.Str? ==> a == if StartsWith(val.s, Http) then Some(val.s) else None)
      && (val.List? || val.Dict? ==> a == if Truthy(Extract(val)) then Extract(val) else None)
      && (val.NoneValue? || val.Obj? ==> a.None?)
    decreases v, 0, 0
  {
    var i := FindAttr(v.attrs, name);
    if i < 0 then None
    else
      match v.attrs[i].1
      case Raises => None
      case Yields(val) =>
        if val.Str? && StartsWith(val.s, Http) then Some(val.s)
        else if (val.List? || val.Dict?) && Truthy(Extract(val)) then Extract(val)
        else None
  }

  /** What `str(obj)` gives when it looks like an address. */
  function TextFallback(v: PyValue): (r: Option<string>)
    requires v.Obj?
    ensures r.Some? <==> StartsWith(v.text, Http)
    ensures r.Some? ==> r.value == v.text
  {
    if StartsWith(v.text, Http) then Some(v.text) else None
  }

  /**
   * The attribute pass over `names`, then the `str()` fallback: the answer
   * of the first name, in order, that gives one, and the fallback only when
   * none does.
   */
  function FromAttributes(v: PyValue, names: seq<string>): (r: Option<string>)
    requires v.Obj?
    ensures r.Some? ==> r.value != ""
    ensures r.None? ==> !StartsWith(v.text, Http)
    ensures (forall k :: 0 <= k < |names| ==> AttrAnswer(v, names[k]).None?) ==> r == TextFallback(v)
    ensures forall k :: 0 <= k < |names| && AttrAnswer(v, names[k]).Some? ==>
      (forall j :: 0 <= j < k ==> AttrAnswer(v, names[j]).None?) ==> r == AttrAnswer(v, names[k])
    decreases v, 0, |names| + 1
  {
    if names == [] then TextFallback(v)
    else
      var a := AttrAnswer(v, names[0]);
      if a.Some? then a
      else
        var r := FromAttributes(v, names[1..]);
        assert forall j :: 1 <= j < |names| ==> names[1..][j - 1] == names[j];
        r
  }

  // ---------------------------------------------------------------- properties of the extraction

  /** A non-empty list or tuple answers exactly for its first element, even with no address. */
  lemma ListAnswersForHead(items: seq<PyValue>)
    requires |items| > 0
    ensures Extract(List(items)) == Extract(items[0])
  {
  }

  /**
   * A value is checked when `_extract_url` can return from it no string it
   * has not tested for "http": no bare string heads a list it reaches.
   */
  predicate Checked(v: PyValue)
    decreases v
  {
    match v
    case Str(_) => false
    case Dict(_) => true
    case NoneValue => true
    case List(items) => |items| == 0 || Checked(items[0])
    case Obj(attrs, _) =>
      forall i :: 0 <= i < |attrs| && attrs[i].1.Yields? && attrs[i].1.value.List? ==> Checked(attrs[i].1.value)
  }

  /** From a checked value, any address found starts with "http". */
  lemma {:induction false} CheckedGivesHttp(v: PyValue)
    requires Checked(v)
    ensures Extract(v).Some? ==> StartsWith(Extract(v).value, Http)
    decreases v, 1
  {
    match v
    case Str(_) =>
    case Dict(_) =>
    case NoneValue =>
    case List(items) =>
      if |items| > 0 {
        CheckedGivesHttp(items[0]);
      }
    case Obj(_, _) =>
      AttributesGiveHttp(v, AttrNames);
  }

  lemma {:induction false} AttributesGiveHttp(v: PyValue, names: seq<string>)
    requires v.Obj? && Checked(v)
    ensures FromAttributes(v, names).Some? ==> StartsWith(FromAttributes(v, names).value, Http)
    decreases v, 0, |names| + 1
  {
    if names != [] {
      AnswerGivesHttp(v, names[0]);
      AttributesGiveHttp(v, names[1..]);
    }
  }

  lemma {:induction false} AnswerGivesHttp(v: PyValue, name: string)
    requires v.Obj? && Checked(v)
    ensures AttrAnswer(v, name).Some? ==> StartsWith(AttrAnswer(v, name).value, Http)
    decreases v, 0, 0
  {
    var i := FindAttr(v.attrs, name);
    if i >= 0 && v.attrs[i].1.Yields? {
      var val := v.attrs[i].1.value;
      if val.List? || val.Dict? {
        CheckedGivesHttp(val);
      }
    }
  }

  /** An object whose `url` attribute gives an "http" string yields that string, whatever its other attributes and its `str()`. */
  lemma UrlAttributeWins(v: PyValue, u: string)
    requires v.Obj? && FindAttr(v.attrs, "url") >= 0
    requires v.attrs[FindAttr(v.attrs, "url")].1 == Yields(Str(u)) && StartsWith(u, Http)
    ensures Extract(v) == Some(u)
  {
    assert AttrNames[0] == "url";
  }

  /** An object whose `url` attribute gives a list or dictionary holding an address yields that address. */
  lemma NestedAttributeAnswers(v: PyValue, val: PyValue)
    requires v.Obj? && FindAttr(v.attrs, "url") >= 0 && v.attrs[FindAttr(v.attrs, "url")].1 == Yields(val)
    requires (val.List? || val.Dict?) && Truthy(Extract(val))
    ensures Extract(v) == Extract(val)
  {
    assert AttrNames[0] == "url";
  }

  /** An object with none of the four attributes is answered by its `str()` alone. */
  lemma NoAttributesUseText(v: PyValue)
    requires v.Obj? && forall k :: 0 <= k < |AttrNames| ==> FindAttr(v.attrs, AttrNames[k]) < 0
    ensures Extract(v) == TextFallback(v)
  {
  }

  /** An attribute that raises when read or called counts as one that gives `None`. */
  lemma {:induction false} RaisingAttributeIsNone(v: PyValue, names: seq<string>, i: nat)
    requires v.Obj? && i < |v.attrs| && v.attrs[i].1 == Raises
    ensures FromAttributes(v, names) == FromAttributes(Obj(v.attrs[i := (v.attrs[i].0, Yields(NoneValue))], v.text), names)
    decreases |names|
  {
    if names != [] {
      RaisingAnswerIsNone(v, names[0], i);
      RaisingAttributeIsNone(v, names[1..], i);
    }
  }

  /** The same, for one step of the pass. */
  lemma RaisingAnswerIsNone(v: PyValue, name: string, i: nat)
    requires v.Obj? && i < |v.attrs| && v.attrs[i].1 == Raises
    ensures AttrAnswer(v, name) == AttrAnswer(Obj(v.attrs[i := (v.attrs[i].0, Yields(NoneValue))], v.text), name)
  {
    var u := Obj(v.attrs[i := (v.attrs[i].0, Yields(NoneValue))], v.text);
    SameNamesSameFind(v.attrs, u.attrs, name);
  }

  lemma SameNamesSameFind(a: seq<(string, Attr)>, b: seq<(string, Attr)>, name: string)
    requires |a| == |b| && forall j :: 0 <= j < |a| ==> a[j].0 == b[j].0
    ensures FindAttr(a, name) == FindAttr(b, name)
  {
  }

  // ---------------------------------------------------------------- the stylization step

  /** What `client.run` did: returned an output, or raised with a message and a traceback. */
  datatype ClientRun = Returned(output: PyValue) | Failed(error: string, traceback: string)

  /** How the step ended, and the files it wrote. */
  datatype StylizeEffect = StylizeEffect(outcome: Outcome, written: set<string>)

  const TokenMissing := "REPLICATE_API_TOKEN is not set"
  const NoOutput := "Replicate returned no output."
  const DebugSuffix := ".replicate-debug.txt"

  /** Python truthiness of the client's output. */
  predicate PyTruthy(v: PyValue)
  {
    match v
    case Str(s) => s != ""
    case Dict(entries) => entries != []
    case List(items) => items != []
    case NoneValue => false
    case Obj(_, _) => true
  }

  function NoUrlMessage(outPath: string): string
  {
    "Could not extract a downloadable URL from Replicate output. Debug written to " + outPath + DebugSuffix
  }

  /**
   * `stylize_with_replicate(input_face_path, out_path, style_reference)`:
   * `tokenSet` says whether REPLICATE_API_TOKEN is set, `fetch` what
   * `requests.get` followed by `raise_for_status` does for an address.
   */
  function Stylize(tokenSet: bool, outPath: string, run: ClientRun, fetch: string -> Outcome): (e: StylizeEffect)
    ensures e.outcome.Succeeded? <==>
      && tokenSet && run.Returned? && PyTruthy(run.output)
      && Extract(run.output).Some? && fetch(Extract(run.output).value).Succeeded?
    ensures !tokenSet ==> e == StylizeEffect(Raised(TokenMissing), {})
    ensures tokenSet && run.Failed? ==>
      e == StylizeEffect(Raised("Replicate call failed: " + run.error + "\n" + run.traceback), {})
    ensures tokenSet && run.Returned? && !PyTruthy(run.output) ==> e == StylizeEffect(Raised(NoOutput), {})
    ensures outPath + DebugSuffix in e.written <==>
      tokenSet && run.Returned? && PyTruthy(run.output) && Extract(run.output).None?
    ensures tokenSet && run.Returned? && PyTruthy(run.output) && Extract(run.output).None? ==>
      e.outcome == Raised(NoUrlMessage(outPath))
    ensures tokenSet && run.Returned? && PyTruthy(run.output) && Extract(run.output).Some?
            && fetch(Extract(run.output).value).Raised? ==>
      e == StylizeEffect(fetch(Extract(run.output).value), {})
    ensures outPath in e.written <==> e.outcome.Succeeded?
    ensures |e.written| <= 1
  {
    if !tokenSet then StylizeEffect(Raised(TokenMissing), {})
    else if run.Failed? then StylizeEffect(Raised("Replicate call failed: " + run.error + "\n" + run.traceback), {})
    else if !PyTruthy(run.output) then StylizeEffect(Raised(NoOutput), {})
    else
      var url := Extract(run.output);
      if url.None? then
        assert |outPath + DebugSuffix| != |outPath|;
        StylizeEffect(Raised(NoUrlMessage(outPath)), {outPath + DebugSuffix})
      else
        var got := fetch(url.value);
        if got.Raised? then StylizeEffect(got, {}) else StylizeEffect(Succeeded, {outPath})
  }
}
