/** Naming of an uploaded image: its extension, the stored file name, the
    temporary and final paths, and the public URL. The file writing, the
    HEIC conversion and the random base name are inputs or left out. */
module Storage {
  import opened Text

  /** Defaults of `IMAGE_SAVE_DIR` and `IMAGE_URL_PREFIX`. */
  const IMAGE_SAVE_DIR: string := "./static/images"
  const IMAGE_URL_PREFIX: string := "/images"

  /** `filename.rsplit(".", 1)[-1].lower()` for ASCII names. */
  function Extension(filename: string): (ext: string)
    ensures '.' !in ext && |ext| <= |filename|
    ensures '.' !in filename ==> ext == LowerAscii(filename)
  {
    LowerAscii(AfterLast(filename, '.'))
  }

  predicate NeedsConversion(ext: string) {
    ext == "heic" || ext == "heif"
  }

  /** `os.path.join(dir, name)` for two components. */
  function PathJoin(dir: string, name: string): (p: string)
    ensures StartsWith(name, "/") ==> p == name
    ensures !StartsWith(name, "/") && dir != [] && dir[|dir| - 1] != '/' ==> p == dir + "/" + name
    ensures !StartsWith(name, "/") && (dir == [] || dir[|dir| - 1] == '/') ==> p == dir + name
  {
    if StartsWith(name, "/") then name
    else if dir == [] || dir[|dir| - 1] == '/' then dir + name
    else dir + "/" + name
  }

  /** `os.path.basename`: the text after the last slash. */
  function Basename(path: string): string {
    AfterLast(path, '/')
  }

  datatype SavePlan = SavePlan(
    filename: string,
    finalPath: string,
    tempPath: string,
    needsConversion: bool,
    imageUrl: string)

  /** What `save_image` decides for an upload named `filename`, given the
      random `base` name: HEIC and HEIF become JPEG, anything else keeps its
      extension; the raw bytes go to the temporary path first. */
  function PlanSave(filename: string, base: string, saveDir: string, urlPrefix: string): (p: SavePlan)
    ensures p.needsConversion <==> NeedsConversion(Extension(filename))
    ensures p.filename == if p.needsConversion then base + ".jpg" else base + "." + Extension(filename)
    ensures p.finalPath == PathJoin(saveDir, p.filename)
    ensures p.tempPath == p.finalPath + (if p.needsConversion then ".heic" else "")
    ensures p.tempPath == p.finalPath <==> !p.needsConversion
    ensures p.imageUrl == urlPrefix + "/" + p.filename
  {
    var ext := Extension(filename);
    var conversion := NeedsConversion(ext);
    var name := if conversion then base + ".jpg" else base + "." + ext;
    var finalPath := PathJoin(saveDir, name);
    var tempPath := finalPath + (if conversion then ".heic" else "");
    assert conversion ==> |tempPath| == |finalPath| + 5;
    SavePlan(name, finalPath, tempPath, conversion, urlPrefix + "/" + name)
  }

  /** Lower-casing twice is lower-casing once. */
  lemma LowerAsciiIdempotent(s: string)
    ensures LowerAscii(LowerAscii(s)) == LowerAscii(s)
  {
    var once := LowerAscii(s);
    forall i | 0 <= i < |s| ensures LowerAscii(once)[i] == once[i] {
      if 'A' <= s[i] <= 'Z' {
        assert 'a' <= once[i] <= 'z';
      }
    }
  }

  /** The extension of `stem.ext` is `ext`, lower-cased, whatever the stem. */
  lemma ExtensionOfDotted(stem: string, ext: string)
    requires '.' !in ext
    ensures Extension(stem + "." + ext) == LowerAscii(ext)
    decreases |ext|
  {
    if ext == [] {
      assert (stem + "." + ext)[|stem + "." + ext| - 1] == '.';
    } else {
      var s := stem + "." + ext;
      assert s[..|s| - 1] == stem + "." + ext[..|ext| - 1];
      assert ext[|ext| - 1] in ext;
      ExtensionOfDotted(stem, ext[..|ext| - 1]);
      assert AfterLast(s, '.') == AfterLast(stem + "." + ext[..|ext| - 1], '.') + [ext[|ext| - 1]];
      assert ext == ext[..|ext| - 1] + [ext[|ext| - 1]];
    }
  }

  /** The stored file's own extension is "jpg" after a conversion and the
      upload's extension otherwise: the plan keeps the file type it claims. */
  lemma StoredExtension(filename: string, base: string, saveDir: string, urlPrefix: string)
    ensures var p := PlanSave(filename, base, saveDir, urlPrefix);
      Extension(p.filename) == (if p.needsConversion then "jpg" else Extension(filename))
  {
    if NeedsConversion(Extension(filename)) {
      JpgExtension(base);
    } else {
      KeptExtension(base, filename);
    }
  }

  /** A converted file is named `<base>.jpg`, whose extension is "jpg". */
  lemma JpgExtension(base: string)
    ensures Extension(base + ".jpg") == "jpg"
  {
    assert base + ".jpg" == base + "." + "jpg";
    ExtensionOfDotted(base, "jpg");
    assert LowerAscii("jpg")[0] == 'j' && LowerAscii("jpg")[1] == 'p' && LowerAscii("jpg")[2] == 'g';
  }

  /** Any other file is named `<base>.<ext>` with the upload's extension. */
  lemma KeptExtension(base: string, filename: string)
    ensures Extension(base + "." + Extension(filename)) == Extension(filename)
  {
    ExtensionOfDotted(base, Extension(filename));
    LowerAsciiIdempotent(AfterLast(filename, '.'));
  }

  /** A name without slashes joined under a directory is its own base name. */
  lemma BasenameOfJoin(dir: string, name: string)
    requires name != [] && '/' !in name
    ensures Basename(PathJoin(dir, name)) == name
  {
    var p := PathJoin(dir, name);
    var pre := if dir == [] || dir[|dir| - 1] == '/' then dir else dir + "/";
    assert name[0] in name;
    assert !StartsWith(name, "/");
    AfterLastOfTail(pre, name, '/');
  }

  lemma {:induction false} AfterLastOfTail(pre: string, name: string, c: char)
    requires forall i :: 0 <= i < |name| ==> name[i] != c
    requires pre == [] || pre[|pre| - 1] == c
    ensures AfterLast(pre + name, c) == name
    decreases |name|
  {
    if name == [] {
      assert pre + name == pre;
    } else {
      var s := pre + name;
      var init := name[..|name| - 1];
      var last := name[|name| - 1];
      assert s[|s| - 1] == last && last != c;
      assert s[..|s| - 1] == pre + init;
      AfterLastOfTail(pre, init, c);
      assert AfterLast(s, c) == AfterLast(pre + init, c) + [last];
      assert name == init + [last];
    }
  }
}
