/** A list of strings stored in a database column as one comma-separated
    value: it is written with a join on "," and read back with a split on
    ",". */
module StringSlice {
  newtype byte = b: int | 0 <= b < 256

  predicate NoComma(s: string) {
    forall i :: 0 <= i < |s| ==> s[i] != ','
  }

  /** The parts separated by commas. */
  function Join(parts: seq<string>): string
  {
    if |parts| == 0 then ""
    else if |parts| == 1 then parts[0]
    else Join(parts[..|parts| - 1]) + "," + parts[|parts| - 1]
  }

  /** The pieces between commas; the empty string is one empty piece. */
  function Split(s: string): (parts: seq<string>)
    ensures |parts| >= 1
  {
    if |s| == 0 then [""]
    else
      var init := Split(s[..|s| - 1]);
      var c := s[|s| - 1];
      if c == ',' then init + [""]
      else init[..|init| - 1] + [init[|init| - 1] + [c]]
  }

  /** The driver value of a string slice: the empty slice is stored as the
      empty string, and a non-empty slice of comma-free strings reads back
      as itself. */
  function Value(slice: seq<string>): (v: string)
    ensures |slice| == 0 ==> v == ""
    ensures |slice| >= 1 && (forall k :: 0 <= k < |slice| ==> NoComma(slice[k])) ==> Split(v) == slice
  {
    if |slice| >= 1 && (forall k :: 0 <= k < |slice| ==> NoComma(slice[k])) then
      SplitJoin(slice);
      Join(slice)
    else
      Join(slice)
  }

  /** The bytes read back as text, one character per byte. */
  function Chars(bytes: seq<byte>): string
  {
    seq(|bytes|, i requires 0 <= i < |bytes| => bytes[i] as int as char)
  }

  /** Reading a column back: copy its bytes, then split the text. */
  method Scan(src: seq<byte>) returns (slice: seq<string>)
    ensures slice == Split(Chars(src))
  {
    var ba: seq<byte> := [];
    for i := 0 to |src|
      invariant ba == src[..i]
    {
      ba := ba + [src[i]];
    }
    assert ba == src;
    slice := Split(Chars(ba));
  }

  lemma SplitSnoc(s: string, c: char)
    ensures Split(s + [c]) ==
              if c == ',' then Split(s) + [""]
              else Split(s)[..|Split(s)| - 1] + [Split(s)[|Split(s)| - 1] + [c]]
  {
    assert (s + [c])[..|s|] == s;
  }

  /** No piece of a split holds a comma. */
  lemma {:induction false} SplitNoComma(s: string)
    ensures forall k :: 0 <= k < |Split(s)| ==> NoComma(Split(s)[k])
  {
    if |s| > 0 {
      var t, c := s[..|s| - 1], s[|s| - 1];
      assert s == t + [c];
      SplitNoComma(t);
      SplitSnoc(t, c);
      var st, ss := Split(t), Split(s);
      if c == ',' {
        assert ss == st + [""];
        forall k | 0 <= k < |ss| ensures NoComma(ss[k]) {
          if k < |st| { assert ss[k] == st[k]; }
        }
      } else {
        var last := st[|st| - 1];
        assert ss == st[..|st| - 1] + [last + [c]];
        assert NoComma(last);
        forall k | 0 <= k < |ss| ensures NoComma(ss[k]) {
          if k < |st| - 1 { assert ss[k] == st[k]; }
          else { assert ss[k] == last + [c]; }
        }
      }
    }
  }

  lemma JoinSnoc(parts: seq<string>, p: string)
    requires |parts| >= 1
    ensures Join(parts + [p]) == Join(parts) + "," + p
  {
    assert (parts + [p])[..|parts|] == parts;
  }

  /** Appending to the last part appends to the joined text. */
  lemma JoinExtendLast(init: seq<string>, last: string, c: char)
    ensures Join(init + [last + [c]]) == Join(init + [last]) + [c]
  {
    if |init| == 0 {
      assert init + [last + [c]] == [last + [c]];
      assert init + [last] == [last];
    } else {
      JoinSnoc(init, last + [c]);
      JoinSnoc(init, last);
      var j := Join(init);
      assert j + "," + (last + [c]) == (j + "," + last) + [c];
    }
  }

  /** Splitting and joining again gives back the text. */
  lemma {:induction false} JoinSplit(s: string)
    ensures Join(Split(s)) == s
  {
    if |s| > 0 {
      var t, c := s[..|s| - 1], s[|s| - 1];
      assert s == t + [c];
      JoinSplit(t);
      SplitSnoc(t, c);
      if c == ',' {
        JoinSnoc(Split(t), "");
      } else {
        var st := Split(t);
        assert st == st[..|st| - 1] + [st[|st| - 1]];
        JoinExtendLast(st[..|st| - 1], st[|st| - 1], c);
      }
    }
  }

  /** Text without a comma extends the last piece of a split. */
  lemma {:induction false} SplitExtend(a: string, p: string, init: seq<string>, last: string)
    requires NoComma(p) && Split(a) == init + [last]
    ensures Split(a + p) == init + [last + p]
  {
    if |p| == 0 {
      assert a + p == a;
      assert last + p == last;
    } else {
      var q, c := p[..|p| - 1], p[|p| - 1];
      assert p == q + [c];
      assert NoComma(q);
      assert c != ',';
      assert a + p == (a + q) + [c];
      SplitExtend(a, q, init, last);
      SplitSnoc(a + q, c);
      var sq := Split(a + q);
      assert sq == init + [last + q];
      assert sq[..|sq| - 1] == init;
      assert (last + q) + [c] == last + p;
    }
  }

  /** Joining parts that hold no comma and splitting again gives back the
      parts, as long as there is at least one. */
  lemma {:induction false} SplitJoin(parts: seq<string>)
    requires |parts| >= 1
    requires forall k :: 0 <= k < |parts| ==> NoComma(parts[k])
    ensures Split(Join(parts)) == parts
  {
    var n := |parts| - 1;
    if n == 0 {
      SplitExtend("", parts[0], [], "");
      assert "" + parts[0] == parts[0];
      assert parts == [parts[0]];
    } else {
      var init, last := parts[..n], parts[n];
      assert parts == init + [last];
      assert forall k :: 0 <= k < |init| ==> init[k] == parts[k];
      SplitJoin(init);
      JoinSnoc(init, last);
      var a := Join(init) + ",";
      SplitSnoc(Join(init), ',');
      assert Split(a) == init + [""];
      assert NoComma(last);
      SplitExtend(a, last, init, "");
      assert Join(parts) == a + last;
      assert "" + last == last;
    }
  }

  /** The stored value of the empty slice reads back as one empty string. */
  lemma EmptySliceReadsBackAsOneEmptyString()
    ensures Value([]) == "" && Split(Value([])) == [""]
  {
  }

  /** The example stored value "1,2" stands for the slice ["1", "2"]. */
  lemma ValueExample()
    ensures Value(["1", "2"]) == "1,2"
    ensures Split("1,2") == ["1", "2"]
  {
    SplitJoin(["1", "2"]);
    assert Join(["1", "2"]) == "1,2" by {
      JoinSnoc(["1"], "2");
      assert ["1", "2"] == ["1"] + ["2"];
    }
  }
}
