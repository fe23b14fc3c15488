/**
 * How the handler names and labels the thumbnail it writes: the output key derived
 * from the source key, the format handed to the encoder, and the stored content type.
 */
module ThumbnailNaming {
  import opened Values
  import opened PosixPath

  const OutputPrefix: string := "thumbnails/"
  const ThumbSuffix: string := "_thumb"
  /** Extension used when the source file name has none. */
  const DefaultExtension: string := ".jpg"
  /** Encoder format used when the image library detected none. */
  const DefaultFormat: string := "JPEG"
  const MediaTypePrefix: string := "image/"

  /** The extension the thumbnail keeps: the source's, or `.jpg` when it has none. */
  function ThumbExtension(srcKey: string): string {
    var ext := SplitExt(Basename(srcKey)).1;
    if ext != [] then ext else DefaultExtension
  }

  /** `{name}_thumb{ext}`: the source basename without its extension, the suffix, the kept extension. */
  function ThumbFileName(srcKey: string): string {
    SplitExt(Basename(srcKey)).0 + ThumbSuffix + ThumbExtension(srcKey)
  }

  /** `thumbnails/{name}_thumb{ext}`: the key the thumbnail is stored under. */
  function OutputKey(srcKey: string): string {
    OutputPrefix + ThumbFileName(srcKey)
  }

  /**
   * The file name is a single path component and always carries exactly one
   * extension: a dot followed by text without dots.
   */
  lemma ThumbFileNameSpec(srcKey: string)
    ensures Sep !in ThumbFileName(srcKey)
    ensures ThumbExtension(srcKey) != [] && IsExtension(ThumbExtension(srcKey))
  {
    BasenameSpec(srcKey);
    SplitExtSpec(Basename(srcKey));
    var parts := SplitExt(Basename(srcKey));
    assert Sep !in parts.0 + parts.1;
  }

  /**
   * The output key starts with `thumbnails/` and what follows is a single path
   * component, whatever directories the source key had.
   */
  lemma OutputKeyShape(srcKey: string)
    ensures var key := OutputKey(srcKey);
            |OutputPrefix| < |key| && key[..|OutputPrefix|] == OutputPrefix &&
            Sep !in key[|OutputPrefix|..]
  {
    ThumbFileNameSpec(srcKey);
    assert OutputKey(srcKey)[|OutputPrefix|..] == ThumbFileName(srcKey);
  }

  /**
   * Reading the output key back with the same path rules: its basename is the
   * thumbnail file name, and splitting that gives the source name with `_thumb`
   * appended and the kept extension. So the output key never loses the extension
   * and never gains a second one.
   */
  lemma OutputKeyRoundTrip(srcKey: string)
    ensures Basename(OutputKey(srcKey)) == ThumbFileName(srcKey)
    ensures SplitExt(ThumbFileName(srcKey)) == (SplitExt(Basename(srcKey)).0 + ThumbSuffix, ThumbExtension(srcKey))
  {
    var name := SplitExt(Basename(srcKey)).0;
    var ext := ThumbExtension(srcKey);
    var file := ThumbFileName(srcKey);
    ThumbFileNameSpec(srcKey);
    BasenameAfterDirectory(OutputPrefix, file);
    assert (name + ThumbSuffix)[|name|] == '_';
    assert name + ThumbSuffix + ext == file;
    SplitAtExtension(name + ThumbSuffix, ext, |name|);
  }

  /**
   * Two source keys whose basenames both carry an extension get the same output key
   * only when their basenames agree: directories are dropped, nothing else is.
   */
  lemma OutputKeyInjective(k1: string, k2: string)
    requires SplitExt(Basename(k1)).1 != [] && SplitExt(Basename(k2)).1 != []
    requires OutputKey(k1) == OutputKey(k2)
    ensures Basename(k1) == Basename(k2)
  {
    var f1, f2 := ThumbFileName(k1), ThumbFileName(k2);
    assert f1 == f2 by {
      assert f1 == OutputKey(k1)[|OutputPrefix|..];
      assert f2 == OutputKey(k2)[|OutputPrefix|..];
    }
    var n1, n2 := SplitExt(Basename(k1)).0, SplitExt(Basename(k2)).0;
    assert n1 == n2 && ThumbExtension(k1) == ThumbExtension(k2) by {
      OutputKeyRoundTrip(k1);
      OutputKeyRoundTrip(k2);
      assert n1 + ThumbSuffix == n2 + ThumbSuffix;
      assert n1 == (n1 + ThumbSuffix)[..|n1|];
      assert n2 == (n2 + ThumbSuffix)[..|n2|];
    }
    SplitExtSpec(Basename(k1));
    SplitExtSpec(Basename(k2));
  }

  /** The output key of a file name that has an extension, under any directory. */
  lemma OutputKeyWithExtension(dir: string, name: string, ext: string, k: nat)
    requires dir == [] || dir[|dir| - 1] == Sep
    requires Sep !in name + ext
    requires |ext| > 0 && ext[0] == ExtSep && ExtSep !in ext[1..]
    requires k < |name| && name[k] != ExtSep
    ensures OutputKey(dir + (name + ext)) == OutputPrefix + (name + ThumbSuffix + ext)
  {
    SplitAtExtension(name, ext, k);
    if dir == [] {
      assert dir + (name + ext) == name + ext;
      BasenameOfName(name + ext);
    } else {
      BasenameAfterDirectory(dir, name + ext);
    }
  }

  /** The output key of a file name without an extension, under any directory. */
  lemma OutputKeyOfExtensionless(dir: string, name: string)
    requires dir == [] || dir[|dir| - 1] == Sep
    requires Sep !in name && SplitExt(name).1 == []
    ensures OutputKey(dir + name) == OutputPrefix + (name + ThumbSuffix + DefaultExtension)
  {
    if dir == [] {
      assert dir + name == name;
      BasenameOfName(name);
    } else {
      BasenameAfterDirectory(dir, name);
    }
    assert SplitExt(name).0 == name by {
      SplitExtSpec(name);
    }
  }

  /** The output key of a file name made of leading dots and dot-free text, under any directory. */
  lemma OutputKeyWithoutExtension(dir: string, dots: string, rest: string)
    requires dir == [] || dir[|dir| - 1] == Sep
    requires AllDots(dots) && ExtSep !in rest && Sep !in rest
    ensures OutputKey(dir + (dots + rest)) == OutputPrefix + (dots + rest + ThumbSuffix + DefaultExtension)
  {
    NoExtension(dots, rest);
    assert Sep !in dots + rest by {
      assert forall j :: 0 <= j < |dots| ==> (dots + rest)[j] == ExtSep;
      assert forall j :: |dots| <= j < |dots + rest| ==> (dots + rest)[j] == rest[j - |dots|];
    }
    OutputKeyOfExtensionless(dir, dots + rest);
  }

  /** The key the handler's comment gives, and the one its docstring event produces. */
  lemma OutputKeyExamples(srcKey: string)
    ensures srcKey == "folder/example.png" ==> OutputKey(srcKey) == "thumbnails/example_thumb.png"
    ensures srcKey == "example.jpg" ==> OutputKey(srcKey) == "thumbnails/example_thumb.jpg"
  {
    if srcKey == "folder/example.png" {
      assert "folder/" + ("example" + ".png") == srcKey;
      assert OutputPrefix + ("example" + ThumbSuffix + ".png") == "thumbnails/example_thumb.png";
      OutputKeyWithExtension("folder/", "example", ".png", 0);
    } else if srcKey == "example.jpg" {
      assert [] + ("example" + ".jpg") == srcKey;
      assert OutputPrefix + ("example" + ThumbSuffix + ".jpg") == "thumbnails/example_thumb.jpg";
      OutputKeyWithExtension([], "example", ".jpg", 0);
    }
  }

  /** A key without an extension gets `.jpg`. */
  lemma OutputKeyDefaultExtension(srcKey: string)
    ensures srcKey == "noext" ==> OutputKey(srcKey) == "thumbnails/noext_thumb.jpg"
  {
    if srcKey == "noext" {
      assert [] + ([] + "noext") == srcKey;
      assert OutputPrefix + ([] + "noext" + ThumbSuffix + DefaultExtension) == "thumbnails/noext_thumb.jpg";
      OutputKeyWithoutExtension([], [], "noext");
    }
  }

  /** Only the last dot counts, and a lone trailing dot is kept as the extension. */
  lemma OutputKeyLastDot(srcKey: string)
    ensures srcKey == "a/b/archive.tar.gz" ==> OutputKey(srcKey) == "thumbnails/archive.tar_thumb.gz"
    ensures srcKey == "a." ==> OutputKey(srcKey) == "thumbnails/a_thumb."
  {
    if srcKey == "a/b/archive.tar.gz" {
      assert "a/b/" + ("archive.tar" + ".gz") == srcKey;
      assert OutputPrefix + ("archive.tar" + ThumbSuffix + ".gz") == "thumbnails/archive.tar_thumb.gz";
      OutputKeyWithExtension("a/b/", "archive.tar", ".gz", 0);
    } else if srcKey == "a." {
      assert [] + ("a" + ".") == srcKey;
      assert OutputPrefix + ("a" + ThumbSuffix + ".") == "thumbnails/a_thumb.";
      OutputKeyWithExtension([], "a", ".", 0);
    }
  }

  /** Leading dots never start an extension: a hidden file, or dots before the only other dot. */
  lemma OutputKeyLeadingDots(srcKey: string)
    ensures srcKey == ".hidden" ==> OutputKey(srcKey) == "thumbnails/.hidden_thumb.jpg"
    ensures srcKey == "..png" ==> OutputKey(srcKey) == "thumbnails/..png_thumb.jpg"
  {
    if srcKey == ".hidden" {
      assert [] + ("." + "hidden") == srcKey;
      assert OutputPrefix + ("." + "hidden" + ThumbSuffix + DefaultExtension) == "thumbnails/.hidden_thumb.jpg";
      OutputKeyWithoutExtension([], ".", "hidden");
    } else if srcKey == "..png" {
      assert [] + (".." + "png") == srcKey;
      assert OutputPrefix + (".." + "png" + ThumbSuffix + DefaultExtension) == "thumbnails/..png_thumb.jpg";
      OutputKeyWithoutExtension([], "..", "png");
    }
  }

  /** A key ending in a separator has an empty basename, so only the suffix and `.jpg` remain. */
  lemma OutputKeyOfDirectory(srcKey: string)
    ensures srcKey == "dir/" ==> OutputKey(srcKey) == "thumbnails/_thumb.jpg"
  {
    if srcKey == "dir/" {
      assert "dir/" + ([] + []) == srcKey;
      assert OutputPrefix + ([] + [] + ThumbSuffix + DefaultExtension) == "thumbnails/_thumb.jpg";
      OutputKeyWithoutExtension("dir/", [], []);
    }
  }

  /**
   * A file name that has no extension and is not made of dots only gets the same
   * thumbnail key as that name with `.jpg` appended, whatever directories either had.
   */
  lemma DefaultExtensionCollides(dir: string, name: string)
    requires dir == [] || dir[|dir| - 1] == Sep
    requires Sep !in name && SplitExt(name).1 == [] && !AllDots(name)
    ensures OutputKey(dir + name) == OutputKey(name + DefaultExtension)
  {
    var k :| 0 <= k < |name| && name[k] != ExtSep;
    var ext := DefaultExtension;
    assert Sep !in name + ext by {
      assert forall j :: |name| <= j < |name + ext| ==> (name + ext)[j] == ext[j - |name|];
    }
    assert ext[0] == ExtSep && ExtSep !in ext[1..];
    OutputKeyWithExtension([], name, ext, k);
    assert [] + (name + ext) == name + ext;
    OutputKeyOfExtensionless(dir, name);
  }


  /** Dots followed by `.jpg` are dots followed by dot-free text: no extension. */
  lemma DotsThenDefaultExtension(dots: string)
    requires AllDots(dots)
    ensures Sep !in dots + DefaultExtension && SplitExt(dots + DefaultExtension).1 == []
  {
    var dotted := dots + [ExtSep];
    assert AllDots(dotted) by {
      assert forall j :: 0 <= j < |dots| ==> dotted[j] == dots[j];
    }
    assert dotted + "jpg" == dots + DefaultExtension;
    NoExtension(dotted, "jpg");
  }

  /**
   * A file name made of dots only (including the empty name of a key ending in a
   * separator) does not collide with itself plus `.jpg`: there the appended dot does
   * not start an extension, so `.jpg` stays in the name.
   */
  lemma DotsOnlyDoNotCollide(dir: string, dots: string)
    requires dir == [] || dir[|dir| - 1] == Sep
    requires AllDots(dots)
    ensures OutputKey(dir + dots) != OutputKey(dots + DefaultExtension)
  {
    var name := dots + DefaultExtension;
    assert Sep !in dots by {
      assert forall j :: 0 <= j < |dots| ==> dots[j] == ExtSep;
    }
    NoExtension(dots, []);
    assert dots + [] == dots;
    OutputKeyOfExtensionless(dir, dots);
    DotsThenDefaultExtension(dots);
    OutputKeyOfExtensionless([], name);
    assert [] + name == name;
    assert |OutputKey(name)| == |OutputKey(dir + dots)| + |DefaultExtension|;
  }

  /** `img.format if img.format else 'JPEG'`: a missing or empty detected format means JPEG. */
  function EncodeFormat(detected: Option<string>): (format: string)
    ensures format != []
    ensures detected.Some? && detected.value != [] ==> format == detected.value
    ensures detected.None? || detected.value == [] ==> format == DefaultFormat
  {
    if detected.Some? && detected.value != [] then detected.value else DefaultFormat
  }

  predicate IsUpper(c: char) {
    'A' <= c <= 'Z'
  }

  function LowerChar(c: char): (l: char)
    ensures !IsUpper(l)
    ensures !IsUpper(c) ==> l == c
    ensures IsUpper(c) ==> l as int - c as int == 'a' as int - 'A' as int
  {
    if IsUpper(c) then (c as int - 'A' as int + 'a' as int) as char else c
  }

  /** `str.lower` on the ASCII letters that image format names are made of. */
  function Lower(s: string): (r: string)
    ensures |r| == |s|
    ensures forall i :: 0 <= i < |s| ==> r[i] == LowerChar(s[i])
  {
    if s == [] then [] else [LowerChar(s[0])] + Lower(s[1..])
  }

  /** `image/` followed by the encoder format lower-cased. */
  function ContentType(format: string): (ct: string)
    ensures |ct| == |MediaTypePrefix| + |format| && ct[..|MediaTypePrefix|] == MediaTypePrefix
    ensures forall i :: |MediaTypePrefix| <= i < |ct| ==> !IsUpper(ct[i])
    ensures forall i :: |MediaTypePrefix| <= i < |ct| ==> ct[i] == LowerChar(format[i - |MediaTypePrefix|])
  {
    MediaTypePrefix + Lower(format)
  }

  /** Lower-casing a second time changes nothing, so the content type is already canonical. */
  lemma {:induction false} LowerIdempotent(s: string)
    ensures Lower(Lower(s)) == Lower(s)
  {
    if s != [] {
      LowerIdempotent(s[1..]);
    }
  }

  /** The content types of the default format and of common detected formats. */
  lemma ContentTypeExamples()
    ensures ContentType(EncodeFormat(None)) == "image/jpeg"
    ensures ContentType(EncodeFormat(Some(""))) == "image/jpeg"
    ensures ContentType(EncodeFormat(Some("PNG"))) == "image/png"
    ensures ContentType(EncodeFormat(Some("GIF"))) == "image/gif"
  {
  }
}
