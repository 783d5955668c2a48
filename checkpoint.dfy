/** Checkpoints: `checkpoint_save_system` / `checkpoint_load_system` and the
    two artifacts each tag is stored in.

    The checkpoint directory is an in-memory store of files keyed by path:
    a `.pth` file holds the dictionary of component state dictionaries that
    `_save_system_torch` builds, and a `.npz` file holds the eleven metadata
    values `np.savez` writes positionally (`arr_0` … `arr_10`). */
module Checkpoint {
  import opened Scores
  import opened Components

  datatype Option<T> = None | Some(value: T)

  /** One element of a saved numpy array. */
  datatype Atom = BoolA(b: bool) | ScoreA(s: Score) | IntA(i: int) | RealA(r: real)

  /** A saved array: zero-dimensional (a scalar) or one-dimensional. */
  datatype NpArray = Arr0(item: Atom) | Arr1(items: seq<Atom>)

  /** A Python value of the system that is saved positionally. */
  datatype PyValue = Scalar(a: Atom) | Vector(items: seq<Atom>)

  /** Normalisation offsets and scales of `self.norm`. */
  datatype Norm = Norm(u0: PyValue, ustd: PyValue, y0: PyValue, ystd: PyValue)

  /** The five history lists of a system, in the order the source keeps them. */
  datatype History = History(
    lossVal: seq<Score>,
    lossTrain: seq<Score>,
    batchId: seq<int>,
    time: seq<real>,
    epochId: seq<real>)

  /** The metadata of one checkpoint (line 413 of the source, in order). */
  datatype Meta = Meta(norm: Norm, fitted: bool, bestfit: Score, hist: History)

  /** What `np.load(...).items()` gives back for an array, after line 419:
      a zero-dimensional array becomes the scalar `a.tolist()`, any other
      array is kept. */
  function Unwrap(a: NpArray): PyValue {
    match a
    case Arr0(x) => Scalar(x)
    case Arr1(xs) => Vector(xs)
  }

  /** `np.savez` stores a scalar as a zero-dimensional array and a list as a
      one-dimensional one; loading unwraps it to the same value. */
  function AsArray(v: PyValue): (a: NpArray)
    ensures Unwrap(a) == v
    ensures v.Scalar? <==> a.Arr0?
  {
    match v
    case Scalar(x) => Arr0(x)
    case Vector(xs) => Arr1(xs)
  }

  function ScoreAtom(s: Score): Atom { ScoreA(s) }
  function IntAtom(i: int): Atom { IntA(i) }
  function RealAtom(r: real): Atom { RealA(r) }

  function AtomScore(a: Atom): Option<Score> { if a.ScoreA? then Some(a.s) else None }
  function AtomInt(a: Atom): Option<int> { if a.IntA? then Some(a.i) else None }
  function AtomReal(a: Atom): Option<real> { if a.RealA? then Some(a.r) else None }

  /** A history list as the elements of a one-dimensional array. */
  function EncodeList<T>(s: seq<T>, enc: T -> Atom): (xs: seq<Atom>)
    ensures |xs| == |s|
  {
    if s == [] then [] else EncodeList(s[..|s| - 1], enc) + [enc(s[|s| - 1])]
  }

  /** Element `i` of the array is the encoded element `i` of the list. */
  lemma {:induction false} EncodeListAt<T>(s: seq<T>, enc: T -> Atom)
    ensures forall i :: 0 <= i < |s| ==> EncodeList(s, enc)[i] == enc(s[i])
  {
    if s != [] {
      EncodeListAt(s[..|s| - 1], enc);
    }
  }

  /** The elements of a loaded one-dimensional array read back as a list;
      an element of the wrong kind makes the whole list unreadable. */
  function DecodeList<T>(xs: seq<Atom>, dec: Atom -> Option<T>): (r: Option<seq<T>>)
    ensures r.Some? ==> |r.value| == |xs|
  {
    if xs == [] then Some([])
    else
      match DecodeList(xs[..|xs| - 1], dec)
      case None => None
      case Some(init) =>
        match dec(xs[|xs| - 1])
        case None => None
        case Some(x) => Some(init + [x])
  }

  /** The list reads back exactly when every element does, and then its
      element `i` is what element `i` of the array reads as. */
  lemma {:induction false} DecodeListAt<T>(xs: seq<Atom>, dec: Atom -> Option<T>)
    ensures DecodeList(xs, dec).Some? <==> forall i :: 0 <= i < |xs| ==> dec(xs[i]).Some?
    ensures DecodeList(xs, dec).Some? ==>
      forall i :: 0 <= i < |xs| ==> dec(xs[i]) == Some(DecodeList(xs, dec).value[i])
  {
    if xs != [] {
      var n := |xs| - 1;
      DecodeListAt(xs[..n], dec);
      assert forall i :: 0 <= i < n ==> xs[..n][i] == xs[i];
    }
  }

  /** A list survives being written as an array and read back. */
  lemma ListRoundTrip<T>(s: seq<T>, enc: T -> Atom, dec: Atom -> Option<T>)
    requires forall x :: dec(enc(x)) == Some(x)
    ensures DecodeList(EncodeList(s, enc), dec) == Some(s)
  {
    var xs := EncodeList(s, enc);
    EncodeListAt(s, enc);
    DecodeListAt(xs, dec);
    var r := DecodeList(xs, dec);
    assert forall i :: 0 <= i < |xs| ==> dec(xs[i]) == Some(s[i]);
    assert r.Some?;
    forall i | 0 <= i < |s| ensures r.value[i] == s[i] {
      assert dec(xs[i]) == Some(r.value[i]);
    }
    assert r.value == s;
  }

  lemma ScoresRoundTrip(s: seq<Score>)
    ensures VectorOf(Vector(EncodeList(s, ScoreAtom)), AtomScore) == Some(s)
  {
    ListRoundTrip(s, ScoreAtom, AtomScore);
  }

  lemma IntsRoundTrip(s: seq<int>)
    ensures VectorOf(Vector(EncodeList(s, IntAtom)), AtomInt) == Some(s)
  {
    ListRoundTrip(s, IntAtom, AtomInt);
  }

  lemma RealsRoundTrip(s: seq<real>)
    ensures VectorOf(Vector(EncodeList(s, RealAtom)), AtomReal) == Some(s)
  {
    ListRoundTrip(s, RealAtom, AtomReal);
  }

  /** The eleven arrays `np.savez` writes for a checkpoint (line 413), in
      the order of `FieldArray`. */
  function EncodeMeta(m: Meta): (arrs: seq<NpArray>)
    ensures |arrs| == 11
    ensures arrs[4] == Arr0(BoolA(m.fitted)) && arrs[5] == Arr0(ScoreA(m.bestfit))
    ensures forall i :: 6 <= i < 11 ==> arrs[i].Arr1?
  {
    seq(11, i requires 0 <= i < 11 => FieldArray(m, i))
  }

  /** The i-th saved array: the four parts of the norm, `fitted`,
      `bestfit`, then the five lists. */
  function FieldArray(m: Meta, i: nat): NpArray {
    if i == 0 then AsArray(m.norm.u0)
    else if i == 1 then AsArray(m.norm.ustd)
    else if i == 2 then AsArray(m.norm.y0)
    else if i == 3 then AsArray(m.norm.ystd)
    else if i == 4 then Arr0(BoolA(m.fitted))
    else if i == 5 then Arr0(ScoreA(m.bestfit))
    else if i == 6 then Arr1(EncodeList(m.hist.lossVal, ScoreAtom))
    else if i == 7 then Arr1(EncodeList(m.hist.lossTrain, ScoreAtom))
    else if i == 8 then Arr1(EncodeList(m.hist.batchId, IntAtom))
    else if i == 9 then Arr1(EncodeList(m.hist.time, RealAtom))
    else Arr1(EncodeList(m.hist.epochId, RealAtom))
  }

  function ScalarBool(v: PyValue): Option<bool> {
    if v.Scalar? && v.a.BoolA? then Some(v.a.b) else None
  }

  function ScalarScore(v: PyValue): Option<Score> {
    if v.Scalar? && v.a.ScoreA? then Some(v.a.s) else None
  }

  function VectorOf<T>(v: PyValue, dec: Atom -> Option<T>): Option<seq<T>> {
    if v.Vector? then DecodeList(v.items, dec) else None
  }

  /** Lines 418-420: unwrap every loaded array, then unpack the eleven values
      into the system's attributes. Any other number of arrays makes the
      unpacking raise ValueError (`None`). */
  function DecodeMeta(arrs: seq<NpArray>): (r: Option<Meta>)
    ensures |arrs| != 11 ==> r.None?
    ensures r.Some? ==> EncodeMeta(r.value) == arrs
  {
    if |arrs| != 11 then None
    else
      var r := Unpack(seq(11, i requires 0 <= i < 11 => Unwrap(arrs[i])));
      if r.Some? then EncodeBack(arrs, r.value); r else r
  }

  /** The unpacking of line 420, on the unwrapped values. */
  function Unpack(out: seq<PyValue>): Option<Meta>
    requires |out| == 11
  {
    var fitted := ScalarBool(out[4]);
    var bestfit := ScalarScore(out[5]);
    var lv := VectorOf(out[6], AtomScore);
    var lt := VectorOf(out[7], AtomScore);
    var bi := VectorOf(out[8], AtomInt);
    var tm := VectorOf(out[9], AtomReal);
    var ei := VectorOf(out[10], AtomReal);
    if fitted.Some? && bestfit.Some? && lv.Some? && lt.Some? && bi.Some? && tm.Some? && ei.Some? then
      Some(Meta(Norm(out[0], out[1], out[2], out[3]), fitted.value, bestfit.value,
                History(lv.value, lt.value, bi.value, tm.value, ei.value)))
    else None
  }

  lemma EncodeBack(arrs: seq<NpArray>, m: Meta)
    requires |arrs| == 11
    requires m.norm == Norm(Unwrap(arrs[0]), Unwrap(arrs[1]), Unwrap(arrs[2]), Unwrap(arrs[3]))
    requires Unwrap(arrs[4]) == Scalar(BoolA(m.fitted)) && Unwrap(arrs[5]) == Scalar(ScoreA(m.bestfit))
    requires VectorOf(Unwrap(arrs[6]), AtomScore) == Some(m.hist.lossVal)
    requires VectorOf(Unwrap(arrs[7]), AtomScore) == Some(m.hist.lossTrain)
    requires VectorOf(Unwrap(arrs[8]), AtomInt) == Some(m.hist.batchId)
    requires VectorOf(Unwrap(arrs[9]), AtomReal) == Some(m.hist.time)
    requires VectorOf(Unwrap(arrs[10]), AtomReal) == Some(m.hist.epochId)
    ensures EncodeMeta(m) == arrs
  {
    forall i | 0 <= i < 11 ensures FieldArray(m, i) == arrs[i] {
      if i < 6 {
        assert AsArray(Unwrap(arrs[i])) == arrs[i];
      } else if i == 6 {
        ScoresBack(arrs[6], m.hist.lossVal);
      } else if i == 7 {
        ScoresBack(arrs[7], m.hist.lossTrain);
      } else if i == 8 {
        IntsBack(arrs[8], m.hist.batchId);
      } else if i == 9 {
        RealsBack(arrs[9], m.hist.time);
      } else {
        RealsBack(arrs[10], m.hist.epochId);
      }
    }
    assert EncodeMeta(m) == arrs;
  }

  /** An array that reads back as a list is that list's array. */
  lemma ArrayBack<T>(a: NpArray, s: seq<T>, enc: T -> Atom, dec: Atom -> Option<T>)
    requires forall a, x :: dec(a) == Some(x) ==> enc(x) == a
    requires VectorOf(Unwrap(a), dec) == Some(s)
    ensures Arr1(EncodeList(s, enc)) == a
  {
    ListBack(a.items, s, enc, dec);
  }

  lemma ScoresBack(a: NpArray, s: seq<Score>)
    requires VectorOf(Unwrap(a), AtomScore) == Some(s)
    ensures Arr1(EncodeList(s, ScoreAtom)) == a
  {
    ArrayBack(a, s, ScoreAtom, AtomScore);
  }

  lemma IntsBack(a: NpArray, s: seq<int>)
    requires VectorOf(Unwrap(a), AtomInt) == Some(s)
    ensures Arr1(EncodeList(s, IntAtom)) == a
  {
    ArrayBack(a, s, IntAtom, AtomInt);
  }

  lemma RealsBack(a: NpArray, s: seq<real>)
    requires VectorOf(Unwrap(a), AtomReal) == Some(s)
    ensures Arr1(EncodeList(s, RealAtom)) == a
  {
    ArrayBack(a, s, RealAtom, AtomReal);
  }

  lemma ListBack<T>(xs: seq<Atom>, s: seq<T>, enc: T -> Atom, dec: Atom -> Option<T>)
    requires forall a, x :: dec(a) == Some(x) ==> enc(x) == a
    requires DecodeList(xs, dec) == Some(s)
    ensures EncodeList(s, enc) == xs
  {
    var e := EncodeList(s, enc);
    EncodeListAt(s, enc);
    DecodeListAt(xs, dec);
    forall i | 0 <= i < |xs| ensures e[i] == xs[i] {
      assert dec(xs[i]) == Some(s[i]);
    }
  }

  /** Saving the metadata and loading it back restores all eleven values, in
      order. */
  lemma MetaRoundTrip(m: Meta)
    ensures DecodeMeta(EncodeMeta(m)) == Some(m)
  {
    var arrs := EncodeMeta(m);
    var out := seq(11, i requires 0 <= i < 11 => Unwrap(arrs[i]));
    UnwrapEncoded(m, out);
    UnpackEncoded(m, out);
  }

  /** The eleven values unwrapped from the arrays of `m`, in order. */
  ghost predicate Unwrapped(m: Meta, out: seq<PyValue>) {
    && |out| == 11
    && out[0] == m.norm.u0 && out[1] == m.norm.ustd && out[2] == m.norm.y0 && out[3] == m.norm.ystd
    && out[4] == Scalar(BoolA(m.fitted)) && out[5] == Scalar(ScoreA(m.bestfit))
    && out[6] == Vector(EncodeList(m.hist.lossVal, ScoreAtom))
    && out[7] == Vector(EncodeList(m.hist.lossTrain, ScoreAtom))
    && out[8] == Vector(EncodeList(m.hist.batchId, IntAtom))
    && out[9] == Vector(EncodeList(m.hist.time, RealAtom))
    && out[10] == Vector(EncodeList(m.hist.epochId, RealAtom))
  }

  lemma UnwrapEncoded(m: Meta, out: seq<PyValue>)
    requires out == seq(11, i requires 0 <= i < 11 => Unwrap(EncodeMeta(m)[i]))
    ensures Unwrapped(m, out)
  {
  }

  lemma UnpackEncoded(m: Meta, out: seq<PyValue>)
    requires Unwrapped(m, out)
    ensures Unpack(out) == Some(m)
  {
    ScoresRoundTrip(m.hist.lossVal);
    ScoresRoundTrip(m.hist.lossTrain);
    IntsRoundTrip(m.hist.batchId);
    RealsRoundTrip(m.hist.time);
    RealsRoundTrip(m.hist.epochId);
    UnpackFrom(m, out);
  }

  /** Unpacking gives `m` when every value reads back as its field. */
  lemma UnpackFrom(m: Meta, out: seq<PyValue>)
    requires |out| == 11 && m.norm == Norm(out[0], out[1], out[2], out[3])
    requires ScalarBool(out[4]) == Some(m.fitted) && ScalarScore(out[5]) == Some(m.bestfit)
    requires VectorOf(out[6], AtomScore) == Some(m.hist.lossVal)
    requires VectorOf(out[7], AtomScore) == Some(m.hist.lossTrain)
    requires VectorOf(out[8], AtomInt) == Some(m.hist.batchId)
    requires VectorOf(out[9], AtomReal) == Some(m.hist.time)
    requires VectorOf(out[10], AtomReal) == Some(m.hist.epochId)
    ensures Unpack(out) == Some(m)
  {
  }

  /** The files of the checkpoint directory, by path. */
  datatype Files = Files(pth: map<string, map<string, StateDict>>, npz: map<string, seq<NpArray>>)

  /** `os.path.join(directory, file)` for a relative file name. */
  function Join(dir: string, file: string): string {
    if dir == [] || dir[|dir| - 1] == '/' then dir + file else dir + "/" + file
  }

  function PthPath(dir: string, name: string, tag: string): string {
    Join(dir, name + tag + ".pth")
  }

  function NpzPath(dir: string, name: string, tag: string): string {
    Join(dir, name + tag + ".npz")
  }

  lemma JoinInjective(dir: string, f: string, g: string)
    requires Join(dir, f) == Join(dir, g)
    ensures f == g
  {
    var pre := if dir == [] || dir[|dir| - 1] == '/' then dir else dir + "/";
    assert Join(dir, f) == pre + f && Join(dir, g) == pre + g;
    assert f == (pre + f)[|pre|..];
  }

  /** Files of different tags never collide, and a `.pth` path is never an
      `.npz` path, so saving one tag leaves every other tag's files alone. */
  lemma PathsDistinct(dir: string, name: string, t1: string, t2: string)
    ensures t1 != t2 ==> PthPath(dir, name, t1) != PthPath(dir, name, t2)
    ensures t1 != t2 ==> NpzPath(dir, name, t1) != NpzPath(dir, name, t2)
    ensures PthPath(dir, name, t1) != NpzPath(dir, name, t2)
  {
    if t1 != t2 {
      TagPathsDiffer(dir, name, t1, t2, ".pth");
      TagPathsDiffer(dir, name, t1, t2, ".npz");
    }
    var a, b := name + t1, name + t2;
    ExtensionsDiffer(a, b);
    if PthPath(dir, name, t1) == NpzPath(dir, name, t2) {
      JoinInjective(dir, a + ".pth", b + ".npz");
    }
  }

  lemma TagPathsDiffer(dir: string, name: string, t1: string, t2: string, ext: string)
    requires t1 != t2
    ensures Join(dir, name + t1 + ext) != Join(dir, name + t2 + ext)
  {
    if Join(dir, name + t1 + ext) == Join(dir, name + t2 + ext) {
      JoinInjective(dir, name + t1 + ext, name + t2 + ext);
      NameTagInjective(name, t1, t2, ext);
    }
  }

  lemma NameTagInjective(name: string, t1: string, t2: string, ext: string)
    requires name + t1 + ext == name + t2 + ext
    ensures t1 == t2
  {
    SuffixCancel(name + t1, name + t2, ext);
    assert t1 == (name + t1)[|name|..];
  }

  lemma ExtensionsDiffer(a: string, b: string)
    ensures a + ".pth" != b + ".npz"
  {
    if |a| == |b| {
      assert (a + ".pth")[|a| + 3] == 'h';
      assert (b + ".npz")[|b| + 3] == 'z';
    }
  }

  lemma SuffixCancel(a: string, b: string, x: string)
    requires a + x == b + x
    ensures a == b
  {
    assert |a| == |b|;
    assert a == (a + x)[..|a|];
  }

  /** The whole state of a system object, as pickling it would copy it
      (`checkpointDir` is the directory `get_work_dirs()['checkpoints']`). */
  datatype Snapshot = Snapshot(
    name: string,
    checkpointDir: string,
    useNorm: bool,
    norm: Norm,
    nu: int,
    ny: int,
    fitted: bool,
    components: map<string, Component>,
    bestfit: Score,
    hist: History,
    epoch: seq<real>,
    batchCounter: int,
    epochCounter: real)

  function MetaOf(s: Snapshot): Meta {
    Meta(s.norm, s.fitted, s.bestfit, s.hist)
  }

  /** `_save_system_torch`: the state dictionary of every component except
      the one named `random`. */
  function SavedStates(cs: map<string, Component>): (d: map<string, StateDict>)
    ensures d.Keys == cs.Keys - {"random"}
    ensures forall k :: k in d ==> d[k] == cs[k].state
  {
    map k | k in cs && k != "random" :: cs[k].state
  }

  /** `checkpoint_save_system(name=tag)` on a system in state `s`. */
  function SaveCheckpoint(files: Files, s: Snapshot, tag: string): (f: Files)
    ensures PthPath(s.checkpointDir, s.name, tag) in f.pth
    ensures f.pth[PthPath(s.checkpointDir, s.name, tag)] == SavedStates(s.components)
    ensures NpzPath(s.checkpointDir, s.name, tag) in f.npz
    ensures DecodeMeta(f.npz[NpzPath(s.checkpointDir, s.name, tag)]) == Some(MetaOf(s))
    ensures forall p :: p != PthPath(s.checkpointDir, s.name, tag) ==>
      (p in f.pth <==> p in files.pth) && (p in files.pth ==> f.pth[p] == files.pth[p])
    ensures forall p :: p != NpzPath(s.checkpointDir, s.name, tag) ==>
      (p in f.npz <==> p in files.npz) && (p in files.npz ==> f.npz[p] == files.npz[p])
  {
    MetaRoundTrip(MetaOf(s));
    Files(files.pth[PthPath(s.checkpointDir, s.name, tag) := SavedStates(s.components)],
          files.npz[NpzPath(s.checkpointDir, s.name, tag) := EncodeMeta(MetaOf(s))])
  }

  /** No key of a stored dictionary makes `_load_system_torch` raise: each
      names a live component whose restore does not raise an uncaught error. */
  ghost predicate LoadsCleanly(cs: map<string, Component>, saved: map<string, StateDict>) {
    forall k :: k in saved ==> k in cs && !RestoreState(cs[k], saved[k]).Raised?
  }

  /** The components after `_load_system_torch` ran through `saved` without
      raising: a skipped component (caught error) is left unchanged, and a
      component without a stored entry is not touched. */
  function Restored(cs: map<string, Component>, saved: map<string, StateDict>): (r: map<string, Component>)
    ensures r.Keys == cs.Keys
    ensures forall k :: k in cs && k !in saved ==> r[k] == cs[k]
    ensures forall k :: k in cs && k in saved && RestoreState(cs[k], saved[k]).Caught? ==> r[k] == cs[k]
    ensures forall k :: k in cs && k in saved && RestoreState(cs[k], saved[k]).Loaded? ==>
      r[k] == cs[k].(state := saved[k])
  {
    map k | k in cs :: if k in saved && RestoreState(cs[k], saved[k]).Loaded? then cs[k].(state := saved[k]) else cs[k]
  }

  /** `checkpoint_load_system(name=tag)` on a system in state `s`: `None`
      when it raises (a missing file, an uncaught restore error, an `.npz`
      that does not unpack into the eleven values). */
  ghost function LoadCheckpoint(s: Snapshot, files: Files, tag: string): Option<Snapshot> {
    var pp := PthPath(s.checkpointDir, s.name, tag);
    var np := NpzPath(s.checkpointDir, s.name, tag);
    if pp !in files.pth || !LoadsCleanly(s.components, files.pth[pp]) || np !in files.npz then None
    else
      match DecodeMeta(files.npz[np])
      case None => None
      case Some(m) =>
        Some(s.(components := Restored(s.components, files.pth[pp]),
                norm := m.norm, fitted := m.fitted, bestfit := m.bestfit, hist := m.hist))
  }

  /** Save-then-load: loading a tag just saved into a system with the same
      name, directory and component shapes brings back the saved metadata
      and the saved state of every component except `random`; modes,
      devices and all other attributes stay those of the loading system. */
  lemma {:induction false} SaveLoadRoundTrip(s: Snapshot, live: Snapshot, files: Files, tag: string)
    requires live.checkpointDir == s.checkpointDir && live.name == s.name
    requires forall k :: k in s.components && k != "random" ==>
      k in live.components && Matches(live.components[k].state, s.components[k].state)
    ensures LoadCheckpoint(live, SaveCheckpoint(files, s, tag), tag).Some?
    ensures var r := LoadCheckpoint(live, SaveCheckpoint(files, s, tag), tag).value;
      && MetaOf(r) == MetaOf(s)
      && r.components.Keys == live.components.Keys
      && (forall k :: k in live.components ==>
            r.components[k] == if k in s.components && k != "random"
                               then live.components[k].(state := s.components[k].state)
                               else live.components[k])
      && r == live.(components := r.components, norm := s.norm, fitted := s.fitted,
                    bestfit := s.bestfit, hist := s.hist)
  {
    var f := SaveCheckpoint(files, s, tag);
    var saved := SavedStates(s.components);
    assert f.pth[PthPath(s.checkpointDir, s.name, tag)] == saved;
    forall k | k in saved ensures k in live.components && RestoreState(live.components[k], saved[k]).Loaded? {
    }
    assert LoadsCleanly(live.components, saved);
  }

  /** Loading "_best" right after saving "_last" reads the metadata that
      "_best" held before the save. */
  lemma LoadBestAfterLast(files: Files, fin: Snapshot, now: Snapshot)
    requires LoadCheckpoint(fin, SaveCheckpoint(files, fin, "_last"), "_best") == Some(now)
    ensures var path := NpzPath(fin.checkpointDir, fin.name, "_best");
      && path in files.npz && DecodeMeta(files.npz[path]) == Some(MetaOf(now))
      && now == fin.(components := now.components, norm := now.norm, fitted := now.fitted,
                     bestfit := now.bestfit, hist := now.hist)
  {
    PathsDistinct(fin.checkpointDir, fin.name, "_last", "_best");
    var path := NpzPath(fin.checkpointDir, fin.name, "_best");
    assert SaveCheckpoint(files, fin, "_last").npz[path] == files.npz[path];
  }

  /** The checkpoint directory shared by the training process and the
      validation worker. */
  class CheckpointStore {
    var files: Files

    constructor ()
      ensures files == Files(map[], map[])
    {
      files := Files(map[], map[]);
    }
  }
}
