/** Go slices: windows on a backing array, with spare capacity that `append` may write into. */
module GoSlices {
  import opened Hosts

  /** len addresses of arr from off on; append may grow in place up to cap. */
  datatype Slice = Slice(arr: array<Address>, off: nat, len: nat, cap: nat) {
    ghost predicate Valid() {
      len <= cap && off + cap <= arr.Length
    }

    function View(): (s: seq<Address>)
      requires Valid()
      reads arr
      ensures |s| == len
    {
      arr[off..off + len]
    }

    /** `s[:n]`, which keeps the capacity. */
    function To(n: nat): (s: Slice)
      requires Valid() && n <= len
      reads arr
      ensures s.Valid() && s.View() == View()[..n]
    {
      Slice(arr, off, n, cap)
    }

    /** `s[n:]`. */
    function From(n: nat): (s: Slice)
      requires Valid() && n <= len
      reads arr
      ensures s.Valid() && s.View() == View()[n..]
    {
      Slice(arr, off + n, len - n, cap - n)
    }
  }

  /** A slice that append built: the capacity beyond its length is unknown. */
  method Build(s: seq<Address>) returns (r: Slice)
    ensures fresh(r.arr) && r.Valid() && r.View() == s && r.off == 0
  {
    var spare: nat :| true;
    var arr := new Address[|s| + spare];
    forall i | 0 <= i < |s| { arr[i] := s[i]; }
    r := Slice(arr, 0, |s|, |s| + spare);
  }

  /** `append(dst, src...)`: in place when dst's capacity allows, even over src itself; otherwise
      into a new array, leaving the old one alone. */
  method Append(dst: Slice, src: Slice) returns (r: Slice)
    requires dst.Valid() && src.Valid()
    modifies dst.arr
    ensures r.Valid() && r.View() == old(dst.View() + src.View())
    ensures dst.len + src.len <= dst.cap ==> r == dst.(len := dst.len + src.len)
    ensures dst.len + src.len > dst.cap ==> fresh(r.arr)
    ensures forall i :: 0 <= i < dst.arr.Length && !(dst.off + dst.len <= i < dst.off + dst.len + src.len)
              ==> dst.arr[i] == old(dst.arr[i])
  {
    ghost var d, s := dst.View(), src.View();
    if dst.len + src.len <= dst.cap {
      forall i | 0 <= i < src.len {
        dst.arr[dst.off + dst.len + i] := src.arr[src.off + i];
      }
      r := dst.(len := dst.len + src.len);
      assert forall i :: 0 <= i < src.len ==> dst.arr[dst.off + dst.len + i] == s[i];
      assert forall i :: 0 <= i < dst.len ==> dst.arr[dst.off + i] == d[i];
    } else {
      r := Build(dst.View() + src.View());
    }
  }

  /** A window that writes to x and beyond cannot reach. */
  predicate InFront(w: Slice, x: Slice) {
    w.arr == x.arr ==> w.off + w.len <= x.off
  }

  /** `x = append(x[1:], x[:1]...)` rotates x, whether or not there is spare capacity, and leaves
      any window w in front of x alone. */
  method Rotate(x: Slice, ghost w: Slice) returns (r: Slice)
    requires x.Valid() && x.len > 0 && w.Valid() && InFront(w, x)
    modifies x.arr
    ensures r.Valid() && r.View() == old(x.View()[1..] + x.View()[..1])
    ensures w.View() == old(w.View()) && InFront(w, r)
    ensures r.arr == x.arr || fresh(r.arr)
  {
    r := Append(x.From(1), x.To(1));
    assert forall i :: w.off <= i < w.off + w.len ==> w.arr[i] == old(w.arr[i]);
  }

  /** `x = append(x[:p], x[p+1:]...)` deletes element p in place, leaving any window in front of x
      alone. */
  method Delete(x: Slice, p: nat, ghost w: Slice) returns (r: Slice)
    requires x.Valid() && p < x.len && w.Valid() && InFront(w, x)
    modifies x.arr
    ensures r.Valid() && r.arr == x.arr && r.len == x.len - 1 && InFront(w, r)
    ensures r.View() == old(x.View()[..p] + x.View()[p + 1..])
    ensures w.View() == old(w.View())
  {
    r := Append(x.To(p), x.From(p + 1));
    assert forall i :: w.off <= i < w.off + w.len ==> w.arr[i] == old(w.arr[i]);
  }
}
