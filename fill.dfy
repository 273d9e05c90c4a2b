/** How a block is painted: a table of images and a table of colours,
    indexed by the number of hit points left (animations/Fill.java). */
module Fills {
  import opened JavaText
  import opened Geometry

  const ImagePrefix: string := "image("

  predicate IsImage(s: string)
  {
    StartsWith(s, ImagePrefix)
  }

  /** An image entry no longer than its prefix is the bare prefix itself. */
  lemma ShortImageIsPrefix(s: string)
    requires IsImage(s) && |s| <= |ImagePrefix|
    ensures s == ImagePrefix
  {
    assert s[..|ImagePrefix|] == s;
  }

  /** The resource path of an image entry: the text between "image(" and
      the entry's last character. */
  function ImagePath(s: string): (path: string)
    requires IsImage(s) && |s| > |ImagePrefix|
    ensures s == ImagePrefix + path + [s[|s| - 1]]
  {
    s[|ImagePrefix|..|s| - 1]
  }

  /** No entry from index 1 on is a bare "image(", whose path cannot be
      cut out (the substring call would throw). */
  predicate Loadable(fills: seq<string>)
  {
    forall i :: 1 <= i < |fills| && IsImage(fills[i]) ==> |fills[i]| > |ImagePrefix|
  }

  /** The image table built from an array of fill texts: the path of every
      image entry, by index; index 0 is never read. */
  function ImageTable(fills: seq<string>): map<int, string>
    requires Loadable(fills)
  {
    map i | 1 <= i < |fills| && IsImage(fills[i]) :: ImagePath(fills[i])
  }

  /** The colour table built from an array of fill texts: every other entry
      from index 1 on, read as a colour. */
  function ColorTable(fills: seq<string>): map<int, Color>
  {
    map i | 1 <= i < |fills| && !IsImage(fills[i]) :: FromSpec(fills[i])
  }

  /** Every index from 1 on lands in exactly one table; index 0 in neither. */
  lemma TablesPartition(fills: seq<string>, i: int)
    requires Loadable(fills)
    ensures i in ImageTable(fills) ==> i !in ColorTable(fills)
    ensures (i in ImageTable(fills) || i in ColorTable(fills)) <==> 1 <= i < |fills|
    ensures i in ImageTable(fills) <==> 1 <= i < |fills| && IsImage(fills[i])
  {
  }

  /** Adding entry i to a prefix adds it to exactly one table. */
  lemma TablesStep(fills: seq<string>, i: int)
    requires Loadable(fills) && 1 <= i < |fills|
    ensures Loadable(fills[..i]) && Loadable(fills[..i + 1])
    ensures IsImage(fills[i]) ==> |fills[i]| > |ImagePrefix|
    ensures ImageTable(fills[..i + 1]) ==
      if IsImage(fills[i]) then ImageTable(fills[..i])[i := ImagePath(fills[i])] else ImageTable(fills[..i])
    ensures ColorTable(fills[..i + 1]) ==
      if IsImage(fills[i]) then ColorTable(fills[..i]) else ColorTable(fills[..i])[i := FromSpec(fills[i])]
  {
    var a, b := fills[..i], fills[..i + 1];
    assert forall j :: 0 <= j < i ==> a[j] == fills[j] && b[j] == fills[j];
    assert b[i] == fills[i];
  }

  function Bounded(i: int, n: int): int
  {
    if i <= n then i else n
  }

  lemma MergeUpdate<K, V>(m: map<K, V>, t: map<K, V>, k: K, v: V)
    ensures (m + t)[k := v] == m + t[k := v]
  {
  }

  /** What drawon puts on the surface: an image, or a rectangle filled with
      a colour (None when the colour table has no entry for the index). */
  datatype Paint = DrawImage(path: string) | FillRect(color: Option<Color>)

  /** The table index drawon uses for a hit-point count: the count itself
      when positive, 1 otherwise. */
  function DrawIndex(hitPoints: int): (index: int)
    ensures index >= 1
    ensures hitPoints >= 1 ==> index == hitPoints
    ensures hitPoints <= 0 ==> index == 1
  {
    if hitPoints <= 0 then 1 else hitPoints
  }

  /** How one fill text paints. */
  function SlotPaint(s: string): Paint
    requires IsImage(s) ==> |s| > |ImagePrefix|
  {
    if IsImage(s) then DrawImage(ImagePath(s)) else FillRect(Some(FromSpec(s)))
  }

  class Fill {
    var images: map<int, string>
    var colors: map<int, Color>

    constructor (fills: array<string>)
      requires Loadable(fills[..])
      ensures images == ImageTable(fills[..]) && colors == ColorTable(fills[..])
    {
      images := map[];
      colors := map[];
      new;
      BuildsMap(fills);
    }

    /** Puts every entry from index 1 on into one of the two tables. */
    method BuildsMap(fills: array<string>)
      requires Loadable(fills[..])
      modifies this
      ensures images == old(images) + ImageTable(fills[..])
      ensures colors == old(colors) + ColorTable(fills[..])
    {
      ghost var f := fills[..];
      var i := 1;
      while i < fills.Length
        invariant 1 <= i <= fills.Length || fills.Length == 0
        invariant images == old(images) + ImageTable(f[..Bounded(i, |f|)])
        invariant colors == old(colors) + ColorTable(f[..Bounded(i, |f|)])
      {
        TablesStep(f, i);
        if IsImage(fills[i]) {
          MergeUpdate(old(images), ImageTable(f[..i]), i, ImagePath(fills[i]));
          images := images[i := ImagePath(fills[i])];
        } else {
          MergeUpdate(old(colors), ColorTable(f[..i]), i, FromSpec(fills[i]));
          colors := colors[i := FromSpec(fills[i])];
        }
        i := i + 1;
      }
      assert f[..Bounded(i, |f|)] == f;
    }

    /** What drawon paints for a hit-point count; the tables are only read. */
    function Paint(hitPoints: int): (p: Paint)
      reads this
      ensures p.DrawImage? <==> DrawIndex(hitPoints) in images
      ensures p.FillRect? ==> p.color == (if DrawIndex(hitPoints) in colors then Some(colors[DrawIndex(hitPoints)]) else None)
    {
      var index := DrawIndex(hitPoints);
      if index in images then DrawImage(images[index])
      else FillRect(if index in colors then Some(colors[index]) else None)
    }
  }

  /** A fill built from an array paints, for hit points h, the entry at
      DrawIndex(h), as an image or a colour according to its prefix. */
  lemma PaintShowsSlot(f: Fill, fills: seq<string>, hitPoints: int)
    requires Loadable(fills)
    requires f.images == ImageTable(fills) && f.colors == ColorTable(fills)
    requires DrawIndex(hitPoints) < |fills|
    ensures f.Paint(hitPoints) == SlotPaint(fills[DrawIndex(hitPoints)])
  {
  }
}
