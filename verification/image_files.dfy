/** Recognising wallpaper files by extension and filtering a folder listing. */
module ImageFiles {
  import opened Text
  import Settings

  /** `is_image`: tries the extensions in order and answers true at the first
      one the path ends with, false when none matches. */
  predicate IsImage(extensions: seq<string>, path: string)
    decreases |extensions|
  {
    if |extensions| == 0 then false
    else if EndsWith(path, extensions[0]) then true
    else IsImage(extensions[1..], path)
  }

  /** The early-return scan accepts exactly the paths that end with one of the extensions. */
  lemma {:induction false} IsImageHasSuffix(extensions: seq<string>, path: string)
    ensures IsImage(extensions, path) <==> exists e :: e in extensions && EndsWith(path, e)
    decreases |extensions|
  {
    if |extensions| > 0 {
      IsImageHasSuffix(extensions[1..], path);
      assert forall e :: e in extensions[1..] ==> e in extensions;
      assert forall e :: e in extensions && e != extensions[0] ==> e in extensions[1..];
    }
  }

  /** With the shipped extensions, exactly names ending in ".png" or ".jpg" are images. */
  lemma DefaultIsImage(path: string)
    ensures IsImage(Settings.Default.imageExtensions, path)
            <==> EndsWith(path, ".png") || EndsWith(path, ".jpg")
  {
    IsImageHasSuffix(Settings.Default.imageExtensions, path);
  }

  /** The documented examples, plus upper case not matching. */
  lemma IsImageExamples()
    ensures IsImage(Settings.Default.imageExtensions, "backgrounds/test.png")
    ensures IsImage(Settings.Default.imageExtensions, "backgrounds/test.jpg")
    ensures IsImage(Settings.Default.imageExtensions, ".jpg")
    ensures !IsImage(Settings.Default.imageExtensions, "backgrounds/test.pdf")
    ensures !IsImage(Settings.Default.imageExtensions, ".pdf")
    ensures !IsImage(Settings.Default.imageExtensions, "x.PNG")
  {
    DefaultIsImage("backgrounds/test.png");
    DefaultIsImage("backgrounds/test.jpg");
    DefaultIsImage(".jpg");
    DefaultIsImage("backgrounds/test.pdf");
    DefaultIsImage(".pdf");
    DefaultIsImage("x.PNG");
    assert "x.PNG"[1..][1] != ".png"[1];
    assert "x.PNG"[1..][1] != ".jpg"[1];
  }

  /** `a` can be obtained from `b` by deleting elements (matched greedily). */
  predicate IsSubsequence<T(==)>(a: seq<T>, b: seq<T>)
    decreases |b|
  {
    if |a| == 0 then true
    else if |b| == 0 then false
    else if a[0] == b[0] then IsSubsequence(a[1..], b[1..])
    else IsSubsequence(a, b[1..])
  }

  /** The `filter(is_image, listing)` of `get_wallpaper_paths`: keeps the image
      names, drops the rest, preserves the listing's order. */
  function FilterImages(extensions: seq<string>, listing: seq<string>): (kept: seq<string>)
    ensures forall n :: n in kept <==> n in listing && IsImage(extensions, n)
    decreases |listing|
  {
    if |listing| == 0 then []
    else
      var rest := FilterImages(extensions, listing[1..]);
      assert listing == [listing[0]] + listing[1..];
      if IsImage(extensions, listing[0]) then [listing[0]] + rest else rest
  }

  /** The filter keeps every image name as often as it is listed, drops every
      other name, and keeps the listing's order. */
  lemma {:induction false} FilterImagesExact(extensions: seq<string>, listing: seq<string>)
    ensures forall n :: multiset(FilterImages(extensions, listing))[n]
                        == if IsImage(extensions, n) then multiset(listing)[n] else 0
    ensures IsSubsequence(FilterImages(extensions, listing), listing)
    decreases |listing|
  {
    if |listing| > 0 {
      var rest := FilterImages(extensions, listing[1..]);
      FilterImagesExact(extensions, listing[1..]);
      assert listing == [listing[0]] + listing[1..];
      assert multiset(listing) == multiset{listing[0]} + multiset(listing[1..]);
      if IsImage(extensions, listing[0]) {
        assert ([listing[0]] + rest)[1..] == rest;
      } else if |rest| > 0 {
        assert rest[0] in rest;
      }
    }
  }

  /** Filtering a filtered listing changes nothing. */
  lemma {:induction false} FilterImagesIdempotent(extensions: seq<string>, listing: seq<string>)
    ensures FilterImages(extensions, FilterImages(extensions, listing)) == FilterImages(extensions, listing)
    decreases |listing|
  {
    if |listing| > 0 {
      FilterImagesIdempotent(extensions, listing[1..]);
      var rest := FilterImages(extensions, listing[1..]);
      if IsImage(extensions, listing[0]) {
        assert ([listing[0]] + rest)[1..] == rest;
      }
    }
  }

  /** Filtering a listing that starts with `name`: `name` is kept in front
      exactly when it is an image. */
  lemma FilterImagesCons(extensions: seq<string>, name: string, rest: seq<string>)
    ensures FilterImages(extensions, [name] + rest)
            == (if IsImage(extensions, name) then [name] else []) + FilterImages(extensions, rest)
  {
    assert ([name] + rest)[0] == name;
    assert ([name] + rest)[1..] == rest;
  }

  /** Filtering a listing in two parts gives the two filtered parts, in order. */
  lemma {:induction false} FilterImagesAppend(extensions: seq<string>, a: seq<string>, b: seq<string>)
    ensures FilterImages(extensions, a + b) == FilterImages(extensions, a) + FilterImages(extensions, b)
    decreases |a|
  {
    if |a| == 0 {
      assert a + b == b;
    } else {
      var head := if IsImage(extensions, a[0]) then [a[0]] else [];
      assert a == [a[0]] + a[1..];
      assert a + b == [a[0]] + (a[1..] + b);
      FilterImagesCons(extensions, a[0], a[1..] + b);
      FilterImagesCons(extensions, a[0], a[1..]);
      FilterImagesAppend(extensions, a[1..], b);
      assert head + (FilterImages(extensions, a[1..]) + FilterImages(extensions, b))
          == (head + FilterImages(extensions, a[1..])) + FilterImages(extensions, b);
    }
  }
}
