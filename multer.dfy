/** The upload `fileFilter`: which files multer lets through to `addProduct`. */
module Multer {
  import opened Js

  /** `/jpeg|jpg|png|gif|webp/.test(s)`: one of the five words occurs anywhere in `s`. */
  predicate ImageWord(s: string) {
    Contains(s, "jpeg") || Contains(s, "jpg") || Contains(s, "png") || Contains(s, "gif") || Contains(s, "webp")
  }

  /** The alternatives of the pattern, in order. */
  const ImageWords: seq<string> := ["jpeg", "jpg", "png", "gif", "webp"]

  /** `s` has one of the words of the pattern at some position. */
  ghost predicate HasImageWordAt(s: string) {
    exists k, i :: 0 <= k < |ImageWords| && OccursAt(s, ImageWords[k], i)
  }

  /** The pattern matches exactly when one of its words occurs at some position. */
  lemma ImageWordAt(s: string)
    ensures ImageWord(s) <==> HasImageWordAt(s)
  {
    forall k | 0 <= k < |ImageWords|
      ensures Contains(s, ImageWords[k]) <==> exists i :: OccursAt(s, ImageWords[k], i)
    {
      ContainsAt(s, ImageWords[k]);
    }
    assert ImageWord(s) <==> exists k :: 0 <= k < |ImageWords| && Contains(s, ImageWords[k]) by {
      assert ImageWords[0] == "jpeg" && ImageWords[1] == "jpg" && ImageWords[2] == "png";
      assert ImageWords[3] == "gif" && ImageWords[4] == "webp";
    }
  }

  /** What the filter hands to multer's callback: `(null, true)` or `(new Error(...))`. */
  datatype Decision = Accept | Reject(error: Thrown)

  const OnlyImages := "Only images are allowed (jpeg, jpg, png, gif, webp)"

  /**
   * `fileFilter`: the mimetype is matched as it is, the original name after
   * lowercasing; both must mention an image format.
   */
  function FileFilter(mimetype: string, originalname: string): (r: Decision)
    ensures r.Accept? <==> HasImageWordAt(mimetype) && HasImageWordAt(ToLower(originalname))
    ensures r.Reject? ==> r.error == LibraryError("Error", None, None, OnlyImages)
  {
    ImageWordAt(mimetype);
    ImageWordAt(ToLower(originalname));
    if ImageWord(mimetype) && ImageWord(ToLower(originalname)) then Accept
    else Reject(LibraryError("Error", None, None, OnlyImages))
  }

  lemma LowerCharIdempotent(c: char)
    ensures LowerChar(LowerChar(c)) == LowerChar(c)
  {
  }

  /** The name's letter case never matters: a name and its lowercase form are filtered alike. */
  lemma NameCaseIgnored(mimetype: string, originalname: string)
    ensures FileFilter(mimetype, originalname) == FileFilter(mimetype, ToLower(originalname))
  {
    var once := ToLower(originalname);
    var twice := ToLower(once);
    forall i | 0 <= i < |once|
      ensures twice[i] == once[i]
    {
      LowerCharIdempotent(originalname[i]);
    }
    assert twice == once;
  }

  /** A word starting with a small letter never occurs in a string without small letters. */
  lemma NoSmallLetterNoWord(s: string, w: string)
    requires |w| > 0 && 'a' <= w[0] <= 'z'
    requires forall i :: 0 <= i < |s| ==> !('a' <= s[i] <= 'z')
    ensures !Contains(s, w)
  {
    ContainsAt(s, w);
  }

  /** The mimetype is not lowercased: an upper-case image mimetype is refused. */
  lemma MimetypeCaseMatters()
    ensures FileFilter("IMAGE/PNG", "photo.png").Reject?
  {
    var m := "IMAGE/PNG";
    assert forall i :: 0 <= i < |m| ==> !('a' <= m[i] <= 'z');
    NoSmallLetterNoWord(m, "jpeg");
    NoSmallLetterNoWord(m, "jpg");
    NoSmallLetterNoWord(m, "png");
    NoSmallLetterNoWord(m, "gif");
    NoSmallLetterNoWord(m, "webp");
    assert !ImageWord(m);
  }

  /** The same file with a lower-case mimetype and an upper-case name is accepted. */
  lemma NameCaseFolded()
    ensures FileFilter("image/png", "PHOTO.PNG").Accept?
  {
    assert ToLower("PHOTO.PNG") == "photo.png";
    assert OccursAt("photo.png", "png", 6);
    ContainsAt("photo.png", "png");
    assert OccursAt("image/png", "png", 6);
    ContainsAt("image/png", "png");
  }

  lemma ToLowerConcat(a: string, b: string)
    ensures ToLower(a + b) == ToLower(a) + ToLower(b)
  {
    assert ToLower(a + b) == ToLower(a) + ToLower(b) by {
      forall i | 0 <= i < |a + b|
        ensures ToLower(a + b)[i] == (ToLower(a) + ToLower(b))[i]
      {
        if i < |a| {
          assert (a + b)[i] == a[i];
        } else {
          assert (a + b)[i] == b[i - |a|];
        }
      }
    }
  }

  lemma ImageWordInContext(p: string, s: string, q: string)
    requires ImageWord(s)
    ensures ImageWord(p + s + q)
  {
    if Contains(s, "jpeg") {
      ContainsInContext(p, s, q, "jpeg");
    } else if Contains(s, "jpg") {
      ContainsInContext(p, s, q, "jpg");
    } else if Contains(s, "png") {
      ContainsInContext(p, s, q, "png");
    } else if Contains(s, "gif") {
      ContainsInContext(p, s, q, "gif");
    } else {
      ContainsInContext(p, s, q, "webp");
    }
  }

  /**
   * The pattern is unanchored: whatever surrounds an accepted mimetype or name, the
   * file is still accepted.
   */
  lemma AcceptedInAnyContext(mimetype: string, originalname: string, p: string, q: string)
    requires FileFilter(mimetype, originalname).Accept?
    ensures FileFilter(p + mimetype + q, originalname).Accept?
    ensures FileFilter(mimetype, p + originalname + q).Accept?
  {
    ImageWordInContext(p, mimetype, q);
    ToLowerConcat(p + originalname, q);
    ToLowerConcat(p, originalname);
    ImageWordInContext(ToLower(p), ToLower(originalname), ToLower(q));
  }
}
