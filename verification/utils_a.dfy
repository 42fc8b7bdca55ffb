/** Model of src/main/utils/router1/utils_a.py: two stateless helpers. */
module UtilsA {
  import opened PyStr
  import Json

  /** `function1(arg)`: `arg.strip().lower()`. The result is the lower-cased
      input with its surrounding whitespace cut off. */
  function Function1(arg: string): (out: string)
    ensures NoEdgeSpace(PythonSpace, out) && IsLower(out)
    ensures exists i :: TrimmedSlice(PythonSpace, Lower(arg), out, i)
  {
    LowerOfStrip(arg);
    Lower(Strip(PythonSpace, arg))
  }

  /** Lower-casing commutes with cutting off surrounding whitespace. */
  lemma LowerOfStrip(arg: string)
    ensures NoEdgeSpace(PythonSpace, Lower(Strip(PythonSpace, arg))) && IsLower(Lower(Strip(PythonSpace, arg)))
    ensures exists i :: TrimmedSlice(PythonSpace, Lower(arg), Lower(Strip(PythonSpace, arg)), i)
  {
    var stripped := Strip(PythonSpace, arg);
    var i :| TrimmedSlice(PythonSpace, arg, stripped, i);
    LowerKeepsEdges(PythonSpace, stripped);
    LowerIsLower(stripped);
    LowerTrimmed(arg, stripped, i);
  }

  lemma LowerTrimmed(s: string, r: string, i: int)
    requires TrimmedSlice(PythonSpace, s, r, i)
    ensures TrimmedSlice(PythonSpace, Lower(s), Lower(r), i)
  {
    var low := Lower(s);
    var n := |r|;
    assert Lower(r) == low[i..i + n] by {
      forall k | 0 <= k < n ensures Lower(r)[k] == low[i + k] {
        assert r[k] == s[i + k];
      }
    }
    forall k | 0 <= k < i ensures IsSpace(PythonSpace, low[k]) {
      assert IsSpace(PythonSpace, s[k]);
    }
    forall k | i + n <= k < |s| ensures IsSpace(PythonSpace, low[k]) {
      assert IsSpace(PythonSpace, s[k]);
    }
  }

  /** Applying `function1` to its own output changes nothing. */
  lemma Function1Idempotent(arg: string)
    ensures Function1(Function1(arg)) == Function1(arg)
  {
    var out := Function1(arg);
    StripKeepsTrimmed(PythonSpace, out);
    LowerOfLower(out);
  }

  /** The key `function2` adds. */
  const ProcessedKey := "processed"

  /** `function2(payload)`: a new dict with every entry of `payload` and
      `"processed"` mapped to `True`. Dafny maps are values, so the caller's
      dict is left as it was. */
  function Function2(payload: map<string, Json.Value>): (enriched: map<string, Json.Value>)
    ensures enriched.Keys == payload.Keys + {ProcessedKey}
    ensures enriched[ProcessedKey] == Json.Bool(true)
    ensures forall k :: k in payload && k != ProcessedKey ==> enriched[k] == payload[k]
  {
    payload[ProcessedKey := Json.Bool(true)]
  }

  /** Enriching an already enriched dict changes nothing. */
  lemma Function2Idempotent(payload: map<string, Json.Value>)
    ensures Function2(Function2(payload)) == Function2(payload)
  {
  }
}
