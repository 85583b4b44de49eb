/** Message data: a JSON object as Python's ordered dictionary, and the signature text that is stored in it. */
module MessageData {
  import opened Options
  import opened Utf8

  /** A string, or any other JSON value by its text. */
  datatype Value = Text(chars: seq<Scalar>) | Other(json: seq<Byte>)

  datatype Entry = Entry(key: seq<Scalar>, value: Value)

  /** `"sig"` */
  const SIG: seq<Scalar> := [115, 105, 103]

  predicate Has(d: seq<Entry>, k: seq<Scalar>) {
    d != [] && (d[0].key == k || Has(d[1..], k))
  }

  /** No key occurs twice. */
  predicate IsDict(d: seq<Entry>) {
    d == [] || (!Has(d[1..], d[0].key) && IsDict(d[1..]))
  }

  /** `d[k]`, None where it raises KeyError. */
  function Get(d: seq<Entry>, k: seq<Scalar>): (r: Option<Value>)
    ensures r.Some? <==> Has(d, k)
  {
    if d == [] then None else if d[0].key == k then Some(d[0].value) else Get(d[1..], k)
  }

  /** `d[k] = v`: a key that is there keeps its place, a new one comes last. */
  function Put(d: seq<Entry>, k: seq<Scalar>, v: Value): seq<Entry> {
    if d == [] then [Entry(k, v)]
    else if d[0].key == k then [Entry(k, v)] + d[1..]
    else [d[0]] + Put(d[1..], k, v)
  }

  /** `d.pop(k)`, as far as it changes d. */
  function Remove(d: seq<Entry>, k: seq<Scalar>): (r: seq<Entry>)
    ensures |r| <= |d|
  {
    if d == [] then [] else if d[0].key == k then d[1..] else [d[0]] + Remove(d[1..], k)
  }

  lemma {:induction false} KeysAfterPut(d: seq<Entry>, k: seq<Scalar>, v: Value, other: seq<Scalar>)
    ensures Has(Put(d, k, v), other) <==> Has(d, other) || other == k
  {
    if d != [] && d[0].key != k {
      KeysAfterPut(d[1..], k, v, other);
      assert Put(d, k, v)[1..] == Put(d[1..], k, v);
    }
  }

  lemma {:induction false} KeysAfterRemove(d: seq<Entry>, k: seq<Scalar>, other: seq<Scalar>)
    requires IsDict(d)
    ensures Has(Remove(d, k), other) <==> Has(d, other) && other != k
  {
    if d != [] && d[0].key != k {
      KeysAfterRemove(d[1..], k, other);
      assert Remove(d, k)[1..] == Remove(d[1..], k);
    }
  }

  /** Removing a key leaves every other entry as it was. */
  lemma {:induction false} EntriesAfterRemove(d: seq<Entry>, k: seq<Scalar>, other: seq<Scalar>)
    requires IsDict(d)
    ensures Get(Remove(d, k), other) == if other == k then None else Get(d, other)
  {
    KeysAfterRemove(d, k, other);
    if d != [] && d[0].key != k {
      EntriesAfterRemove(d[1..], k, other);
      assert Remove(d, k)[1..] == Remove(d[1..], k);
    }
  }

  lemma {:induction false} PutKeepsDict(d: seq<Entry>, k: seq<Scalar>, v: Value)
    requires IsDict(d)
    ensures IsDict(Put(d, k, v)) && Get(Put(d, k, v), k) == Some(v)
  {
    if d != [] && d[0].key != k {
      PutKeepsDict(d[1..], k, v);
      KeysAfterPut(d[1..], k, v, d[0].key);
      assert Put(d, k, v)[1..] == Put(d[1..], k, v);
    }
  }

  lemma {:induction false} RemoveKeepsDict(d: seq<Entry>, k: seq<Scalar>)
    requires IsDict(d)
    ensures IsDict(Remove(d, k))
    ensures Remove(d, k) == d <==> !Has(d, k)
  {
    if d != [] && d[0].key != k {
      RemoveKeepsDict(d[1..], k);
      KeysAfterRemove(d[1..], k, d[0].key);
      assert Remove(d, k)[1..] == Remove(d[1..], k) && d == [d[0]] + d[1..];
    } else if d != [] {
      assert |d[1..]| < |d|;
    }
  }

  /** Removing a key that was just stored gives the dictionary back, order included, iff it was not there. */
  lemma {:induction false} RemoveUndoesPut(d: seq<Entry>, k: seq<Scalar>, v: Value)
    requires IsDict(d)
    ensures Remove(Put(d, k, v), k) == d <==> !Has(d, k)
  {
    RemoveOfPut(d, k, v);
    RemoveKeepsDict(d, k);
  }

  lemma {:induction false} RemoveOfPut(d: seq<Entry>, k: seq<Scalar>, v: Value)
    ensures Remove(Put(d, k, v), k) == Remove(d, k)
  {
    if d != [] {
      if d[0].key == k {
        assert Put(d, k, v)[1..] == d[1..];
      } else {
        RemoveOfPut(d[1..], k, v);
        assert Put(d, k, v)[1..] == Put(d[1..], k, v);
      }
    }
  }

  /** The keys are those of the entries. */
  lemma {:induction false} HasIff(d: seq<Entry>, k: seq<Scalar>)
    ensures Has(d, k) <==> exists i :: 0 <= i < |d| && d[i].key == k
  {
    if d != [] {
      HasIff(d[1..], k);
      if i :| 0 <= i < |d| && d[i].key == k {
        assert i > 0 ==> d[1..][i - 1].key == k;
      }
      if Has(d[1..], k) {
        var i :| 0 <= i < |d[1..]| && d[1..][i].key == k;
        assert d[i + 1].key == k;
      }
    }
  }

  /** A dictionary holds every key once, and looking it up gives the value of its entry. */
  lemma {:induction false} DictIff(d: seq<Entry>)
    ensures IsDict(d) <==> forall i, j :: 0 <= i < j < |d| ==> d[i].key != d[j].key
    ensures IsDict(d) ==> forall i :: 0 <= i < |d| ==> Get(d, d[i].key) == Some(d[i].value)
  {
    if d != [] {
      var tail := d[1..];
      DictIff(tail);
      HasIff(tail, d[0].key);
      assert forall i :: 0 < i < |d| ==> d[i] == tail[i - 1];
      assert forall i :: 0 <= i < |tail| ==> tail[i] == d[i + 1];
    }
  }

  /** A new key goes to the end; one that is there keeps its place, and all other entries stay where they are. */
  lemma {:induction false} PutPlaces(d: seq<Entry>, k: seq<Scalar>, v: Value)
    ensures !Has(d, k) ==> Put(d, k, v) == d + [Entry(k, v)]
    ensures Has(d, k) ==> exists i :: 0 <= i < |d| && d[i].key == k && Put(d, k, v) == d[i := Entry(k, v)]
  {
    if d != [] && d[0].key != k {
      PutPlaces(d[1..], k, v);
      if Has(d, k) {
        var i :| 0 <= i < |d[1..]| && d[1..][i].key == k && Put(d[1..], k, v) == d[1..][i := Entry(k, v)];
        assert [d[0]] + d[1..][i := Entry(k, v)] == d[i + 1 := Entry(k, v)];
      } else {
        assert [d[0]] + (d[1..] + [Entry(k, v)]) == d + [Entry(k, v)];
      }
    } else if d != [] {
      assert [Entry(k, v)] + d[1..] == d[0 := Entry(k, v)];
    }
  }

  // ----- ISO-8859-1

  /** `sig.decode("ISO-8859-1")` */
  function FromLatin1(b: seq<Byte>): (s: seq<Scalar>)
    ensures |s| == |b| && forall i :: 0 <= i < |b| ==> s[i] == b[i]
  {
    if b == [] then [] else [b[0]] + FromLatin1(b[1..])
  }

  /** `.encode("ISO-8859-1")`, None where it raises UnicodeEncodeError. */
  function ToLatin1(s: seq<Scalar>): Option<seq<Byte>> {
    if s == [] then Some([])
    else if s[0] >= 256 then None
    else
      match ToLatin1(s[1..])
      case None => None
      case Some(b) => Some([s[0]] + b)
  }

  lemma {:induction false} Latin1RoundTrip(b: seq<Byte>)
    ensures ToLatin1(FromLatin1(b)) == Some(b)
  {
    if b != [] {
      Latin1RoundTrip(b[1..]);
      assert FromLatin1(b)[1..] == FromLatin1(b[1..]);
      assert b == [b[0]] + b[1..];
    }
  }

  lemma {:induction false} FromToLatin1(s: seq<Scalar>)
    requires ToLatin1(s).Some?
    ensures FromLatin1(ToLatin1(s).value) == s
  {
    if s != [] {
      FromToLatin1(s[1..]);
      assert ToLatin1(s).value[1..] == ToLatin1(s[1..]).value;
      assert s == [s[0]] + s[1..];
    }
  }
}
