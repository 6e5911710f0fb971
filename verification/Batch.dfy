/** The compaction loop of `poll_recv`: datagrams that do not open are dropped from a batch
    by swapping the good ones to the front. */
module Batch {
  import opened Masking

  /** Positions below `n` whose datagram is readable, in arrival order. */
  function Accepted(metas: seq<Meta>, n: nat): (r: seq<nat>)
    requires n <= |metas|
    ensures |r| <= n
    ensures forall v :: 0 <= v < |r| ==> r[v] < n && metas[r[v]].stride > IV_LEN && Readable(metas[r[v]])
  {
    if n == 0 then []
    else if Readable(metas[n - 1]) then Accepted(metas, n - 1) + [n - 1]
    else Accepted(metas, n - 1)
  }

  /** The filter is stable and complete: positions ascend, and none that opens is missing. */
  lemma {:induction false} AcceptedIsTheFilter(metas: seq<Meta>, n: nat)
    requires n <= |metas|
    ensures forall v, w :: 0 <= v < w < |Accepted(metas, n)| ==> Accepted(metas, n)[v] < Accepted(metas, n)[w]
    ensures forall i :: 0 <= i < n && Readable(metas[i]) ==> i in Accepted(metas, n)
  {
    hide Readable;
    if n > 0 {
      AcceptedIsTheFilter(metas, n - 1);
      var before, acc := Accepted(metas, n - 1), Accepted(metas, n);
      if acc != before {
        assert acc == before + [n - 1];
        forall i | 0 <= i < n && Readable(metas[i]) ensures i in acc {
          if i < n - 1 { assert i in before; } else { assert acc[|before|] == i; }
        }
      }
    }
  }

  /** `buf` holds, and `got` describes, what the datagram `image` received as `m` opens to. */
  ghost predicate Delivered(ks: Keystream, buf: array<bv8>, got: Meta, image: Octets, m: Meta)
    reads buf
  {
    && m.len <= |image| && m.stride > IV_LEN
    && var plain := Unmasked(ks, image[..m.len], m.stride);
       got == Meta(|plain|, m.stride - IV_LEN) && |plain| <= buf.Length && buf[..|plain|] == plain
  }

  /** The buffers as a bag. */
  ghost function Bag<T>(s: seq<T>): multiset<T> { multiset(s) }

  method Swap<T>(a: array<T>, i: nat, j: nat)
    requires i < a.Length && j < a.Length
    modifies a
    ensures a[..] == old(a[..])[i := old(a[j])][j := old(a[i])]
    ensures Bag(a[..]) == old(Bag(a[..]))
  {
    a[i], a[j] := a[j], a[i];
  }

  /** The arrays and the buffers are separate allocations, as slices of distinct Rust owners
      are. */
  ghost predicate Separate(bufs: array<array<bv8>>, udp: array<Meta>, meta: array<Meta>)
    reads bufs
  {
    && udp != meta && bufs as object != udp && bufs as object != meta
    && (forall i, j :: 0 <= i < j < bufs.Length ==> bufs[i] != bufs[j])
    && (forall i :: 0 <= i < bufs.Length ==>
          bufs[i] as object != bufs && bufs[i] as object != udp && bufs[i] as object != meta)
  }

  /** The first |acc| places hold the datagrams that arrived at the positions `acc`. */
  ghost predicate Front(ks: Keystream, bufs: array<array<bv8>>, udp: array<Meta>, meta: array<Meta>,
                        b0: seq<array<bv8>>, u0: seq<Meta>, images: seq<Octets>, acc: seq<nat>)
    reads bufs, udp, meta, b0
  {
    && |acc| <= bufs.Length && |acc| <= udp.Length && |acc| <= meta.Length
    && forall v :: 0 <= v < |acc| ==>
         && acc[v] < |b0| && acc[v] < |u0| && acc[v] < |images|
         && bufs[v] == b0[acc[v]] && udp[v] == meta[v]
         && Delivered(ks, b0[acc[v]], meta[v], images[acc[v]], u0[acc[v]])
  }

  /** Swaps an opened datagram to the end of the front. */
  method Promote(ks: Keystream, bufs: array<array<bv8>>, udp: array<Meta>, meta: array<Meta>, index: nat,
                 ghost b0: seq<array<bv8>>, ghost u0: seq<Meta>, ghost images: seq<Octets>,
                 ghost acc: seq<nat>, valid: nat)
    requires Separate(bufs, udp, meta) && Bag(bufs[..]) == Bag(b0)
    requires forall b :: b in b0 ==> b as object != bufs && b as object != udp && b as object != meta
    requires Front(ks, bufs, udp, meta, b0, u0, images, acc) && |acc| == valid <= index
    requires index < bufs.Length && index < udp.Length && index < meta.Length
    requires index < |b0| && index < |u0| && index < |images|
    requires bufs[index] == b0[index] && Delivered(ks, b0[index], udp[index], images[index], u0[index])
    modifies bufs, udp, meta
    ensures Separate(bufs, udp, meta) && Bag(bufs[..]) == Bag(b0)
    ensures Front(ks, bufs, udp, meta, b0, u0, images, acc + [index])
    ensures forall k :: index < k < bufs.Length ==> bufs[k] == old(bufs[k])
    ensures forall k :: index < k < udp.Length ==> udp[k] == old(udp[k])
  {
    hide Delivered;
    Swap(bufs, valid, index);
    Swap(udp, valid, index);
    meta[valid] := udp[valid];
  }

  /** Opens one datagram in place. */
  method OpenOne(ks: Keystream, buf: array<bv8>, meta: Meta) returns (ok: bool, m: Meta)
    requires meta.len <= buf.Length
    modifies buf
    ensures ok <==> Readable(meta)
    ensures ok ==> Delivered(ks, buf, m, old(buf[..]), meta)
  {
    hide Unmasked;
    ok, m := DecryptMetaPayload(ks, buf, meta);
    assert old(buf[..])[..meta.len] == old(buf[..meta.len]);
  }

  ghost function Images(bs: seq<array<bv8>>): (r: seq<Octets>)
    reads bs
    ensures |r| == |bs| && forall i :: 0 <= i < |bs| ==> r[i] == bs[i][..]
  {
    seq(|bs|, i requires 0 <= i < |bs| reads bs => bs[i][..])
  }

  /** The state of the loop at `index`: the accepted datagrams in front, the unseen ones as
      they arrived. */
  ghost predicate LoopAt(ks: Keystream, bufs: array<array<bv8>>, udp: array<Meta>, meta: array<Meta>, count: nat,
                         b0: seq<array<bv8>>, u0: seq<Meta>, images: seq<Octets>, index: nat)
    reads bufs, udp, meta, b0
  {
    && index <= count <= bufs.Length && count <= udp.Length && count <= meta.Length
    && |b0| == |images| == bufs.Length && |u0| == udp.Length
    && Separate(bufs, udp, meta) && Bag(bufs[..]) == Bag(b0)
    && (forall i, j :: 0 <= i < j < |b0| ==> b0[i] != b0[j])
    && (forall b :: b in b0 ==> b as object != bufs && b as object != udp && b as object != meta)
    && (forall k :: index <= k < bufs.Length ==> bufs[k] == b0[k])
    && (forall k :: index <= k < count ==> udp[k] == u0[k] && b0[k][..] == images[k] && u0[k].len <= b0[k].Length)
    && Front(ks, bufs, udp, meta, b0, u0, images, Accepted(u0, index))
  }

  /** Opens the datagram at `index` and records its new meta; the front is not touched. */
  method OpenAt(ks: Keystream, bufs: array<array<bv8>>, udp: array<Meta>, meta: array<Meta>, count: nat, index: nat,
                ghost b0: seq<array<bv8>>, ghost u0: seq<Meta>, ghost images: seq<Octets>)
    returns (ok: bool)
    requires LoopAt(ks, bufs, udp, meta, count, b0, u0, images, index) && index < count
    modifies udp, b0[index]
    ensures ok <==> Readable(u0[index])
    ensures ok ==> Delivered(ks, b0[index], udp[index], images[index], u0[index])
    ensures Front(ks, bufs, udp, meta, b0, u0, images, Accepted(u0, index))
    ensures forall k :: index < k < count ==> udp[k] == u0[k] && b0[k][..] == images[k]
  {
    hide Readable, Delivered;
    var m;
    ok, m := OpenOne(ks, bufs[index], udp[index]);
    udp[index] := m;
  }

  /** One turn of the loop. */
  method Turn(ks: Keystream, bufs: array<array<bv8>>, udp: array<Meta>, meta: array<Meta>, count: nat, index: nat,
              valid: nat, ghost b0: seq<array<bv8>>, ghost u0: seq<Meta>, ghost images: seq<Octets>)
    returns (valid': nat)
    requires LoopAt(ks, bufs, udp, meta, count, b0, u0, images, index) && index < count
    requires valid == |Accepted(u0, index)|
    modifies bufs, udp, meta, b0[index]
    ensures LoopAt(ks, bufs, udp, meta, count, b0, u0, images, index + 1)
    ensures valid' == |Accepted(u0, index + 1)|
  {
    hide Readable, Delivered, Front;
    valid' := valid;
    var ok := OpenAt(ks, bufs, udp, meta, count, index, b0, u0, images);
    if ok {
      Promote(ks, bufs, udp, meta, index, b0, u0, images, Accepted(u0, index), valid);
      valid' := valid + 1;
    }
  }

  lemma LoopStarts(ks: Keystream, bufs: array<array<bv8>>, udp: array<Meta>, meta: array<Meta>, count: nat)
    requires count <= bufs.Length && count <= udp.Length && count <= meta.Length
    requires Separate(bufs, udp, meta)
    requires forall i :: 0 <= i < count ==> udp[i].len <= bufs[i].Length
    ensures LoopAt(ks, bufs, udp, meta, count, bufs[..], udp[..], Images(bufs[..]), 0)
  {
    hide Readable, Delivered;
  }

  lemma LoopEnds(ks: Keystream, bufs: array<array<bv8>>, udp: array<Meta>, meta: array<Meta>, count: nat,
                 b0: seq<array<bv8>>, u0: seq<Meta>, images: seq<Octets>)
    requires LoopAt(ks, bufs, udp, meta, count, b0, u0, images, count)
    ensures Bag(bufs[..]) == Bag(b0)
    ensures var acc := Accepted(u0, count);
      && |acc| <= count
      && forall v :: 0 <= v < |acc| ==>
           bufs[v] == b0[acc[v]] && Delivered(ks, bufs[v], meta[v], images[acc[v]], u0[acc[v]])
  {
    hide Readable, Delivered;
  }

  /** After the loop the first `valid` buffers and metas are exactly the accepted datagrams in
      arrival order, each buffer still beside its own decrypted meta, and no buffer is lost. */
  method Compact(ks: Keystream, bufs: array<array<bv8>>, udp: array<Meta>, meta: array<Meta>, count: nat)
    returns (valid: nat)
    requires count <= bufs.Length && count <= udp.Length && count <= meta.Length
    requires Separate(bufs, udp, meta)
    requires forall i :: 0 <= i < count ==> udp[i].len <= bufs[i].Length
    modifies bufs, udp, meta, bufs[..]
    ensures valid == |Accepted(old(udp[..]), count)| <= count
    ensures forall v :: 0 <= v < valid ==>
      var i := Accepted(old(udp[..]), count)[v];
      bufs[v] == old(bufs[i]) && Delivered(ks, bufs[v], meta[v], old(bufs[i][..]), old(udp[i]))
    ensures Bag(bufs[..]) == old(Bag(bufs[..]))
  {
    hide Readable, Delivered, LoopAt, Front, Separate;
    ghost var b0, u0, images := bufs[..], udp[..], Images(bufs[..]);
    LoopStarts(ks, bufs, udp, meta, count);
    valid := 0;
    for index := 0 to count
      invariant LoopAt(ks, bufs, udp, meta, count, b0, u0, images, index)
      invariant valid == |Accepted(u0, index)|
    {
      valid := Turn(ks, bufs, udp, meta, count, index, valid, b0, u0, images);
    }
    LoopEnds(ks, bufs, udp, meta, count, b0, u0, images);
  }
}
