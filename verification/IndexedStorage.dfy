/** The two string stores (IndexedStorageLib/IndexedStorage.cpp).  SnappyStorage keeps full blocks of
    400 strings compressed, the newest strings in a write list, and the block read last decoded.

    The snappy library is a pair of functions of which uncompress undoes compress.  Strings may hold
    any character; what a NUL inside one does is part of the results. */
module IndexedStorages {
  import opened Options

  const BLOCK_SIZE := 400

  // ----- the block format: each string followed by a NUL -----

  function Raw(strings: seq<string>): string {
    if strings == [] then "" else strings[0] + "\0" + Raw(strings[1..])
  }

  predicate NulFree(s: string) {
    '\0' !in s
  }

  predicate AllNulFree(strings: seq<string>) {
    forall i :: 0 <= i < |strings| ==> NulFree(strings[i])
  }

  predicate Terminated(data: string) {
    data == "" || data[|data| - 1] == '\0'
  }

  /** The length of the text before the first NUL. */
  function TextLength(data: string): (n: nat)
    requires data != "" && Terminated(data)
    ensures n < |data| && data[n] == '\0' && NulFree(data[..n])
  {
    if data[0] == '\0' then 0 else 1 + TextLength(data[1..])
  }

  /** The texts between the NULs. */
  function Pieces(data: string): seq<string>
    requires Terminated(data)
  {
    if data == "" then []
    else [data[..TextLength(data)]] + Pieces(data[TextLength(data) + 1..])
  }

  lemma {:induction false} RawTerminated(strings: seq<string>)
    ensures Terminated(Raw(strings))
  {
    if strings != [] {
      RawTerminated(strings[1..]);
    }
  }

  lemma {:induction false} RawAppend(strings: seq<string>, s: string)
    ensures Raw(strings + [s]) == Raw(strings) + s + "\0"
  {
    if strings == [] {
      assert (strings + [s])[1..] == [];
    } else {
      RawAppend(strings[1..], s);
      assert (strings + [s])[1..] == strings[1..] + [s];
      Regroup(strings[0] + "\0", Raw(strings[1..]), s, "\0");
    }
  }

  lemma Regroup(a: string, b: string, c: string, d: string)
    ensures a + (b + c + d) == a + b + c + d
  {
  }

  lemma {:induction false} TextLengthIs(data: string, k: nat)
    requires Terminated(data) && k < |data| && data[k] == '\0' && NulFree(data[..k])
    ensures TextLength(data) == k
  {
    if k > 0 {
      assert data[..k][0] == data[0];
      assert data[1..][..k - 1] == data[..k][1..];
      TextLengthIs(data[1..], k - 1);
    }
  }

  /** Decoding takes the text up to the first NUL. */
  lemma PiecesOf(text: string, rest: string)
    requires NulFree(text) && Terminated(rest)
    ensures Terminated(text + "\0" + rest)
    ensures Pieces(text + "\0" + rest) == [text] + Pieces(rest)
  {
    var data := text + "\0" + rest;
    assert data[..|text|] == text && data[|text| + 1..] == rest;
    TextLengthIs(data, |text|);
  }

  lemma {:induction false} PiecesNulFree(data: string)
    requires Terminated(data)
    ensures AllNulFree(Pieces(data))
    decreases |data|
  {
    if data != "" {
      PiecesNulFree(data[TextLength(data) + 1..]);
    }
  }

  lemma {:induction false} SplitAtNul(text: string) returns (head: string, tail: string)
    requires !NulFree(text)
    ensures text == head + "\0" + tail && NulFree(head)
  {
    if text[0] == '\0' {
      head, tail := "", text[1..];
    } else {
      assert text == [text[0]] + text[1..];
      head, tail := SplitAtNul(text[1..]);
      head := [text[0]] + head;
    }
  }

  lemma {:induction false} AtLeastOnePiece(text: string, rest: string)
    requires Terminated(rest)
    ensures Terminated(text + "\0" + rest)
    ensures |Pieces(text + "\0" + rest)| >= 1 + |Pieces(rest)|
    decreases |text|
  {
    if NulFree(text) {
      PiecesOf(text, rest);
    } else {
      var head, tail := SplitAtNul(text);
      AtLeastOnePiece(tail, rest);
      PiecesOf(head, tail + "\0" + rest);
      Regroup(head + "\0", tail, "\0", rest);
    }
  }

  /** A decoded block has at least as many strings as went in. */
  lemma {:induction false} EnoughPieces(strings: seq<string>)
    ensures Terminated(Raw(strings)) && |Pieces(Raw(strings))| >= |strings|
  {
    RawTerminated(strings);
    if strings != [] {
      EnoughPieces(strings[1..]);
      AtLeastOnePiece(strings[0], Raw(strings[1..]));
    }
  }

  lemma {:induction false} DecodedWhenNulFree(strings: seq<string>)
    requires AllNulFree(strings)
    ensures Terminated(Raw(strings)) && Pieces(Raw(strings)) == strings
  {
    RawTerminated(strings);
    if strings != [] {
      assert AllNulFree(strings[1..]);
      DecodedWhenNulFree(strings[1..]);
      PiecesOf(strings[0], Raw(strings[1..]));
    }
  }

  /** Decompressing a block gives every string of it back exactly when none holds a NUL. */
  lemma DecodesIff(strings: seq<string>)
    ensures Terminated(Raw(strings)) && |Pieces(Raw(strings))| >= |strings|
    ensures Pieces(Raw(strings))[..|strings|] == strings <==> AllNulFree(strings)
  {
    EnoughPieces(strings);
    PiecesNulFree(Raw(strings));
    if AllNulFree(strings) {
      DecodedWhenNulFree(strings);
    } else {
      var i :| 0 <= i < |strings| && !NulFree(strings[i]);
      assert Pieces(Raw(strings))[..|strings|][i] != strings[i];
    }
  }

  // ----- what a read gives, for any contents -----

  function BlockOf(contents: seq<string>, b: nat): seq<string>
    requires BLOCK_SIZE * (b + 1) <= |contents|
  {
    contents[BLOCK_SIZE * b..BLOCK_SIZE * (b + 1)]
  }

  ghost function ReadBack(contents: seq<string>, index: nat): string
    requires index < |contents|
  {
    var b := index / BLOCK_SIZE;
    if b == |contents| / BLOCK_SIZE then contents[index]
    else
      EnoughPieces(BlockOf(contents, b));
      Pieces(Raw(BlockOf(contents, b)))[index % BLOCK_SIZE]
  }

  /** The strings in full blocks; the others are in the write list. */
  ghost predicate BlocksNulFree(contents: seq<string>) {
    forall i :: 0 <= i < |contents| && i / BLOCK_SIZE < |contents| / BLOCK_SIZE ==> NulFree(contents[i])
  }

  lemma ReadBackIff(contents: seq<string>)
    ensures (forall i :: 0 <= i < |contents| ==> ReadBack(contents, i) == contents[i]) <==> BlocksNulFree(contents)
  {
    forall i | 0 <= i < |contents| && i / BLOCK_SIZE < |contents| / BLOCK_SIZE
      ensures NulFree(ReadBack(contents, i))
      ensures BlocksNulFree(contents) ==> ReadBack(contents, i) == contents[i]
    {
      var b := i / BLOCK_SIZE;
      var block := BlockOf(contents, b);
      EnoughPieces(block);
      PiecesNulFree(Raw(block));
      assert block[i % BLOCK_SIZE] == contents[i];
      if BlocksNulFree(contents) {
        assert forall j :: 0 <= j < BLOCK_SIZE ==> block[j] == contents[BLOCK_SIZE * b + j];
        DecodedWhenNulFree(block);
      }
    }
  }

  // ----- the compressing store -----

  /** The full blocks are in storage, the strings after them in the write list. */
  ghost predicate Holds(snappy: string -> string, contents: seq<string>, blocks: nat, writeList: seq<string>,
      storage: seq<string>)
  {
    && |storage| == blocks && |writeList| < BLOCK_SIZE
    && |contents| == BLOCK_SIZE * blocks + |writeList|
    && writeList == contents[BLOCK_SIZE * blocks..]
    && forall b :: 0 <= b < blocks ==> storage[b] == snappy(Raw(BlockOf(contents, b)))
  }

  lemma BlockOfLonger(contents: seq<string>, value: string, b: nat)
    requires BLOCK_SIZE * (b + 1) <= |contents|
    ensures BlockOf(contents + [value], b) == BlockOf(contents, b)
  {
  }

  lemma AddToList(snappy: string -> string, contents: seq<string>, blocks: nat, writeList: seq<string>,
      storage: seq<string>, value: string)
    requires Holds(snappy, contents, blocks, writeList, storage) && |writeList| + 1 < BLOCK_SIZE
    ensures Holds(snappy, contents + [value], blocks, writeList + [value], storage)
  {
    forall b | 0 <= b < blocks
      ensures storage[b] == snappy(Raw(BlockOf(contents + [value], b)))
    {
      BlockOfLonger(contents, value, b);
    }
  }

  lemma AddFullBlock(snappy: string -> string, contents: seq<string>, blocks: nat, writeList: seq<string>,
      storage: seq<string>, value: string)
    requires Holds(snappy, contents, blocks, writeList, storage) && |writeList| + 1 == BLOCK_SIZE
    ensures Holds(snappy, contents + [value], blocks + 1, [], storage + [snappy(Raw(writeList + [value]))])
  {
    assert BlockOf(contents + [value], blocks) == writeList + [value];
    forall b | 0 <= b < blocks
      ensures storage[b] == snappy(Raw(BlockOf(contents + [value], b)))
    {
      BlockOfLonger(contents, value, b);
    }
  }

  class SnappyStorage {
    const snappy: string -> string
    const unsnappy: string -> string
    var writeBlockIndex: nat
    var readBlockIndex: Option<nat>  // None is UNSET_VALUE
    var readList: seq<string>
    var writeList: seq<string>
    var storage: seq<string>
    ghost var contents: seq<string>

    ghost predicate Valid()
      reads this
    {
      && (forall s :: unsnappy(snappy(s)) == s)
      && Holds(snappy, contents, writeBlockIndex, writeList, storage)
      && CacheOk()
    }

    /** The cache is the decoded block it names. */
    ghost predicate CacheOk()
      requires |contents| >= BLOCK_SIZE * writeBlockIndex
      reads this
    {
      readBlockIndex.Some? ==>
        && readBlockIndex.value < writeBlockIndex
        && Terminated(Raw(BlockOf(contents, readBlockIndex.value)))
        && readList == Pieces(Raw(BlockOf(contents, readBlockIndex.value)))
    }

    constructor (snappy: string -> string, unsnappy: string -> string)
      requires forall s :: unsnappy(snappy(s)) == s
      ensures Valid() && contents == []
    {
      this.snappy, this.unsnappy := snappy, unsnappy;
      writeBlockIndex, readBlockIndex := 0, None;
      readList, writeList, storage, contents := [], [], [], [];
    }

    method Clear()
      requires Valid()
      modifies this
      ensures Valid() && contents == []
    {
      storage := [];
      readList := [];
      readBlockIndex := None;
      writeList := [];
      writeBlockIndex := 0;
      contents := [];
    }

    /** Stores a string and returns its index: the number of strings stored before. */
    method Add(value: string) returns (result: nat)
      requires Valid()
      modifies this
      ensures Valid() && contents == old(contents) + [value] && result == |old(contents)|
    {
      ghost var before, list := contents, writeList;
      var id := |writeList|;
      writeList := writeList + [value];
      result := writeBlockIndex * BLOCK_SIZE + id;
      contents := contents + [value];
      if readBlockIndex.Some? {
        BlockOfLonger(before, value, readBlockIndex.value);
      }
      if id == BLOCK_SIZE - 1 {
        AddFullBlock(snappy, before, writeBlockIndex, list, storage, value);
        var test := Compress(writeList);
        storage := storage + [test];
        writeList := [];
        writeBlockIndex := writeBlockIndex + 1;
      } else {
        AddToList(snappy, before, writeBlockIndex, list, storage, value);
      }
    }

    method GetString(index: nat) returns (s: string)
      requires Valid() && index < |contents|
      modifies this`readList, this`readBlockIndex
      ensures Valid() && s == ReadBack(contents, index)
      ensures NulFree(s) || s == contents[index]
      ensures BlocksNulFree(contents) ==> s == contents[index]
    {
      ReadBackIff(contents);
      var blockId, id := index / BLOCK_SIZE, index % BLOCK_SIZE;
      if blockId == writeBlockIndex {
        return writeList[id];
      }
      EnoughPieces(BlockOf(contents, blockId));
      PiecesNulFree(Raw(BlockOf(contents, blockId)));
      if readBlockIndex != Some(blockId) {
        readList := Decompress(storage[blockId]);
        readBlockIndex := Some(blockId);
      }
      s := readList[id];
    }

    method Compress(value: seq<string>) returns (data: string)
      ensures data == snappy(Raw(value))
    {
      var raw := "";
      for i := 0 to |value|
        invariant raw == Raw(value[..i])
      {
        ghost var before := raw;
        for j := 0 to |value[i]|
          invariant raw == before + value[i][..j]
        {
          assert value[i][..j + 1] == value[i][..j] + [value[i][j]];
          raw := raw + [value[i][j]];
        }
        assert value[i][..|value[i]|] == value[i];
        raw := raw + "\0";
        RawAppend(value[..i], value[i]);
        assert value[..i + 1] == value[..i] + [value[i]];
      }
      assert value[..|value|] == value;
      data := snappy(raw);
    }

    /** The inner loop stops in bounds because a block ends in a NUL. */
    method Decompress(value: string) returns (vec: seq<string>)
      requires Terminated(unsnappy(value))
      ensures vec == Pieces(unsnappy(value))
    {
      var data := unsnappy(value);
      vec := [];
      var it := 0;
      assert data[0..] == data;
      while it != |data|
        invariant 0 <= it <= |data| && Decoded(data, it, vec)
        decreases |data| - it
      {
        var begin := it;
        while data[it] != '\0'
          invariant begin <= it < |data| && NulFree(data[begin..it])
          decreases |data| - it
        {
          NotYet(data, begin, it);
          it := it + 1;
        }
        DecodedNext(data, begin, it, vec);
        vec := vec + [data[begin..it]];
        it := it + 1;
      }
      assert data[it..] == "" && vec + [] == vec;
    }
  }

  /** vec holds the strings of data up to position it. */
  ghost predicate Decoded(data: string, it: nat, vec: seq<string>) {
    it <= |data| && Terminated(data) && Terminated(data[it..]) && vec + Pieces(data[it..]) == Pieces(data)
  }

  lemma NotYet(data: string, begin: nat, it: nat)
    requires begin <= it < |data| && Terminated(data)
    requires NulFree(data[begin..it]) && data[it] != '\0'
    ensures it + 1 < |data| && NulFree(data[begin..it + 1])
  {
    assert data[begin..it + 1] == data[begin..it] + [data[it]];
  }

  lemma DecodedNext(data: string, begin: nat, it: nat, vec: seq<string>)
    requires Decoded(data, begin, vec) && begin <= it < |data|
    requires NulFree(data[begin..it]) && data[it] == '\0'
    ensures Decoded(data, it + 1, vec + [data[begin..it]])
  {
    var s, rest := data[begin..it], data[it + 1..];
    SplitAt(data, begin, it);
    PiecesOf(s, rest);
    Shift(vec, s, Pieces(rest));
  }

  lemma SplitAt(data: string, begin: nat, it: nat)
    requires begin <= it < |data|
    ensures data[begin..] == data[begin..it] + [data[it]] + data[it + 1..]
  {
  }

  lemma Shift(before: seq<string>, s: string, after: seq<string>)
    ensures before + ([s] + after) == before + [s] + after
  {
  }

  // ----- agreement with the plain store -----

  class VectorStorage {
    var strings: seq<string>

    constructor ()
      ensures strings == []
    {
      strings := [];
    }

    method Add(value: string) returns (result: nat)
      modifies this
      ensures strings == old(strings) + [value] && result == |old(strings)|
    {
      strings := strings + [value];
      result := |strings| - 1;
    }

    method GetString(index: nat) returns (s: string)
      requires index < |strings|
      ensures s == strings[index]
    {
      s := strings[index];
    }
  }

  datatype Operation = Store(value: string) | Read(index: nat)
  datatype Answer = Index(n: nat) | Text(s: string)

  /** Reads stay within what has been stored, starting from n strings. */
  predicate InRange(ops: seq<Operation>, n: nat) {
    ops == [] || (match ops[0] case Store(_) => InRange(ops[1..], n + 1) case Read(i) => i < n && InRange(ops[1..], n))
  }

  predicate StoresNulFree(ops: seq<Operation>) {
    forall i :: 0 <= i < |ops| && ops[i].Store? ==> NulFree(ops[i].value)
  }

  /** For NUL-free strings both stores give the same answers to any interleaving of additions and reads. */
  method AnswerBoth(ops: seq<Operation>, fast: SnappyStorage, plain: VectorStorage)
      returns (a: seq<Answer>, b: seq<Answer>)
    requires fast.Valid() && fast.contents == plain.strings && AllNulFree(plain.strings)
    requires InRange(ops, |plain.strings|) && StoresNulFree(ops)
    modifies fast, plain
    ensures a == b && |a| == |ops|
    ensures fast.Valid() && fast.contents == plain.strings
  {
    a, b := [], [];
    for i := 0 to |ops|
      invariant fast.Valid() && fast.contents == plain.strings && AllNulFree(plain.strings)
      invariant InRange(ops[i..], |plain.strings|)
      invariant a == b && |a| == i
    {
      assert ops[i..][1..] == ops[i + 1..];
      match ops[i]
      case Store(value) =>
        var m := fast.Add(value);
        var n := plain.Add(value);
        a, b := a + [Index(m)], b + [Index(n)];
      case Read(index) =>
        var s := fast.GetString(index);
        var t := plain.GetString(index);
        a, b := a + [Text(s)], b + [Text(t)];
    }
  }
}
