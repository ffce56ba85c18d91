/** The packing format of an archive as it travels through file names: recorded in
    the storage path when the archive is packed, read back from it when a base is
    materialized, and read once more from the name of the downloaded file. */
module Formats {
  import opened Records
  import opened Trees
  import opened Server

  function Lower(c: char): char {
    if 'A' <= c <= 'Z' then (c as int + 32) as char else c
  }

  function ToLower(s: string): string {
    seq(|s|, i requires 0 <= i < |s| => Lower(s[i]))
  }

  /** The white space that strings.TrimSpace removes. */
  predicate Blank(c: char) {
    || '\t' <= c <= '\r' || c == ' ' || c == '\U{0085}' || c == '\U{00A0}' || c == '\U{1680}'
    || '\U{2000}' <= c <= '\U{200A}' || c == '\U{2028}' || c == '\U{2029}' || c == '\U{202F}' || c == '\U{205F}'
    || c == '\U{3000}'
  }

  function TrimSpace(s: string): string
    decreases |s|
  {
    if s == "" then s
    else if Blank(s[0]) then TrimSpace(s[1..])
    else if Blank(s[|s| - 1]) then TrimSpace(s[..|s| - 1])
    else s
  }

  predicate HasSuffix(s: string, suffix: string) {
    |suffix| <= |s| && s[|s| - |suffix|..] == suffix
  }

  /** Where the part after the last c begins; 0 when there is no c. */
  function AfterLast(s: string, c: char): (n: nat)
    ensures n <= |s|
  {
    if s == "" then 0
    else if s[|s| - 1] == c then |s|
    else AfterLast(s[..|s| - 1], c)
  }

  /** filepath.Base. */
  function Base(path: string): string {
    if path == "" then "."
    else if path[|path| - 1] == '/' then if |path| == 1 then "/" else Base(path[..|path| - 1])
    else path[AfterLast(path, '/')..]
  }

  function FormatName(format: Format): string {
    match format
    case Zip => "zip"
    case Tar => "tar"
    case TarGz => "tar.gz"
    case TarBz2 => "tar.bz2"
  }

  function NormalizeArchiveFormat(text: string): Format {
    var name := ToLower(TrimSpace(text));
    if name == "zip" then Zip
    else if name == "tar" then Tar
    else if name == "tar.gz" || name == "tgz" then TarGz
    else if name == "tar.bz2" || name == "tbz2" then TarBz2
    else Zip
  }

  /** The format named by the end of a lower-case file name. */
  function FormatOfName(name: string): string {
    if HasSuffix(name, ".tar.gz") || HasSuffix(name, ".tgz") then "tar.gz"
    else if HasSuffix(name, ".tar.bz2") || HasSuffix(name, ".tbz2") then "tar.bz2"
    else if HasSuffix(name, ".tar") then "tar"
    else if '.' in name then name[AfterLast(name, '.')..]
    else ""
  }

  /** archiveFormatFromPath; an unknown extension is passed on as it is. */
  function FormatFromPath(path: string): string {
    FormatOfName(ToLower(Base(path)))
  }

  // ---------- one trip through a file name ----------

  lemma {:induction false} AfterLastOfTail(s: string, c: char, tail: string)
    requires c !in tail
    ensures AfterLast(s + [c] + tail, c) == |s| + 1
  {
    if tail == "" {
      assert s + [c] + tail == s + [c];
    } else {
      var init := tail[..|tail| - 1];
      assert (s + [c] + tail)[..|s + [c] + tail| - 1] == s + [c] + init;
      AfterLastOfTail(s, c, init);
    }
  }

  lemma BaseOfTail(dir: string, name: string)
    requires name != "" && '/' !in name
    ensures Base(dir + "/" + name) == name
  {
    AfterLastOfTail(dir, '/', name);
  }

  lemma LowerOfAppend(stem: string, format: Format)
    ensures ToLower(stem + ("." + FormatName(format))) == ToLower(stem) + ("." + FormatName(format))
  {
  }

  lemma SuffixIsFound(stem: string, suffix: string)
    ensures HasSuffix(stem + suffix, suffix)
  {
  }

  lemma SuffixesDiffer(s: string, suffix: string)
    requires s != "" && suffix != "" && s[|s| - 1] != suffix[|suffix| - 1]
    ensures !HasSuffix(s, suffix)
  {
    if |suffix| <= |s| { assert s[|s| - |suffix|..][|suffix| - 1] == s[|s| - 1]; }
  }

  lemma ZipIsFound(stem: string)
    ensures FormatOfName(stem + ".zip") == "zip"
  {
    var name := stem + ".zip";
    assert name == stem + ['.'] + "zip";
    AfterLastOfTail(stem, '.', "zip");
    SuffixesDiffer(name, ".tar.gz");
    SuffixesDiffer(name, ".tgz");
    SuffixesDiffer(name, ".tar.bz2");
    SuffixesDiffer(name, ".tbz2");
    SuffixesDiffer(name, ".tar");
  }

  lemma TarIsFound(stem: string)
    ensures FormatOfName(stem + ".tar") == "tar"
  {
    var name := stem + ".tar";
    SuffixIsFound(stem, ".tar");
    SuffixesDiffer(name, ".tar.gz");
    SuffixesDiffer(name, ".tgz");
    SuffixesDiffer(name, ".tar.bz2");
    SuffixesDiffer(name, ".tbz2");
  }

  lemma TarGzIsFound(stem: string)
    ensures FormatOfName(stem + ".tar.gz") == "tar.gz"
  {
    SuffixIsFound(stem, ".tar.gz");
  }

  lemma TarBz2IsFound(stem: string)
    ensures FormatOfName(stem + ".tar.bz2") == "tar.bz2"
  {
    var name := stem + ".tar.bz2";
    SuffixIsFound(stem, ".tar.bz2");
    SuffixesDiffer(name, ".tar.gz");
    SuffixesDiffer(name, ".tgz");
  }

  lemma FormatIsFound(stem: string, format: Format)
    ensures FormatOfName(stem + ("." + FormatName(format))) == FormatName(format)
  {
    match format
    case Zip => assert "." + FormatName(format) == ".zip"; ZipIsFound(stem);
    case Tar => assert "." + FormatName(format) == ".tar"; TarIsFound(stem);
    case TarGz => assert "." + FormatName(format) == ".tar.gz"; TarGzIsFound(stem);
    case TarBz2 => assert "." + FormatName(format) == ".tar.bz2"; TarBz2IsFound(stem);
  }

  /** Whatever comes before the dot, the format named after it is read back. */
  lemma FormatIsReadBack(dir: string, stem: string, format: Format)
    requires '/' !in stem
    ensures FormatFromPath(dir + "/" + (stem + ("." + FormatName(format)))) == FormatName(format)
  {
    BaseOfTail(dir, stem + ("." + FormatName(format)));
    LowerOfAppend(stem, format);
    FormatIsFound(ToLower(stem), format);
  }

  /** Each of the four format names normalizes to its own format. */
  lemma NormalizingIsStable(format: Format)
    ensures NormalizeArchiveFormat(FormatName(format)) == format
  {
    var name := FormatName(format);
    assert TrimSpace(name) == name;
    assert ToLower(name) == name;
  }

  lemma LowerIsKnown(text: string, name: string)
    requires |text| == |name| && forall i | 0 <= i < |text| :: Lower(text[i]) == name[i]
    ensures ToLower(text) == name
  {
  }

  lemma ZipAndTarAreKnown()
    ensures NormalizeArchiveFormat("zip") == NormalizeArchiveFormat("ZIP") == Zip
    ensures NormalizeArchiveFormat("tar") == NormalizeArchiveFormat("TAR") == Tar
  {
    LowerIsKnown("zip", "zip");
    LowerIsKnown("ZIP", "zip");
    LowerIsKnown("tar", "tar");
    LowerIsKnown("TAR", "tar");
  }

  lemma TarGzIsKnown()
    ensures NormalizeArchiveFormat("tar.gz") == NormalizeArchiveFormat("TAR.GZ") == TarGz
    ensures NormalizeArchiveFormat("tgz") == NormalizeArchiveFormat("TGZ") == TarGz
  {
    LowerIsKnown("tar.gz", "tar.gz");
    LowerIsKnown("TAR.GZ", "tar.gz");
    LowerIsKnown("tgz", "tgz");
    LowerIsKnown("TGZ", "tgz");
  }

  lemma TarBz2IsKnown()
    ensures NormalizeArchiveFormat("tar.bz2") == NormalizeArchiveFormat("TAR.BZ2") == TarBz2
    ensures NormalizeArchiveFormat("tbz2") == NormalizeArchiveFormat("TBZ2") == TarBz2
  {
    LowerIsKnown("tar.bz2", "tar.bz2");
    LowerIsKnown("TAR.BZ2", "tar.bz2");
    LowerIsKnown("tbz2", "tbz2");
    LowerIsKnown("TBZ2", "tbz2");
  }

  /** The names a recorded format can have, in either case; any other is taken for zip. */
  lemma NamesAreNormalized(other: string)
    ensures NormalizeArchiveFormat("zip") == NormalizeArchiveFormat("ZIP") == Zip
    ensures NormalizeArchiveFormat("tar") == NormalizeArchiveFormat("TAR") == Tar
    ensures NormalizeArchiveFormat("tar.gz") == NormalizeArchiveFormat("TAR.GZ") == TarGz
    ensures NormalizeArchiveFormat("tgz") == NormalizeArchiveFormat("TGZ") == TarGz
    ensures NormalizeArchiveFormat("tar.bz2") == NormalizeArchiveFormat("TAR.BZ2") == TarBz2
    ensures NormalizeArchiveFormat("tbz2") == NormalizeArchiveFormat("TBZ2") == TarBz2
    ensures (TrimSpace(other) == ToLower(other) == other
             && other !in {"tar", "tar.gz", "tgz", "tar.bz2", "tbz2"}) ==> NormalizeArchiveFormat(other) == Zip
  {
    ZipAndTarAreKnown();
    TarGzIsKnown();
    TarBz2IsKnown();
  }

  /** White space around a name does not matter. */
  lemma BlanksAreTrimmed(before: string, name: string, after: string)
    requires forall c | c in before || c in after ::
               c in {' ', '\t', '\n', '\r', '\U{000B}', '\U{000C}', '\U{0085}', '\U{00A0}'}
    ensures NormalizeArchiveFormat(before + name + after) == NormalizeArchiveFormat(name)
  {
    TrimDropsBlanks(before, name, after);
  }

  lemma {:induction false} TrimDropsBlanks(before: string, name: string, after: string)
    requires forall c | c in before || c in after :: Blank(c)
    ensures TrimSpace(before + name + after) == TrimSpace(name)
    decreases |before| + |name| + |after|
  {
    var s := before + name + after;
    if before != "" {
      assert s[1..] == before[1..] + name + after;
      TrimDropsBlanks(before[1..], name, after);
    } else if after == "" {
      assert s == name;
    } else if name == "" || Blank(name[0]) {
      assert s[1..] == if name == "" then "" + "" + after[1..] else "" + name[1..] + after;
      if name == "" { TrimDropsBlanks("", "", after[1..]); } else { TrimDropsBlanks("", name[1..], after); }
    } else {
      assert s[..|s| - 1] == "" + name + after[..|after| - 1];
      assert s[|s| - 1] == after[|after| - 1];
      TrimDropsBlanks("", name, after[..|after| - 1]);
    }
  }

  /** The short extensions of a file name are read as the formats they stand for. */
  lemma ShortExtensionsAreRead(dir: string, stem: string)
    requires '/' !in stem
    ensures FormatFromPath(dir + "/" + (stem + ".tgz")) == "tar.gz"
    ensures FormatFromPath(dir + "/" + (stem + ".tbz2")) == "tar.bz2"
  {
    BaseOfTail(dir, stem + ".tgz");
    BaseOfTail(dir, stem + ".tbz2");
    assert ToLower(stem + ".tgz") == ToLower(stem) + ".tgz";
    assert ToLower(stem + ".tbz2") == ToLower(stem) + ".tbz2";
    SuffixIsFound(ToLower(stem), ".tgz");
    SuffixIsFound(ToLower(stem), ".tbz2");
    SuffixesDiffer(ToLower(stem) + ".tbz2", ".tgz");
    SuffixesDiffer(ToLower(stem) + ".tbz2", ".tar.gz");
  }

  // ---------- packing, downloading, extracting ----------

  /** The key compressAndUploadArchive stores an archive under. */
  function StoragePath(id: string, uuid: string, format: Format): string {
    "builds/" + id + "/" + ("archive_default_" + uuid + ("." + FormatName(format)))
  }

  /** Where materializeArchivedTree downloads it to. */
  function DownloadPath(dir: string, storagePath: string): string {
    dir + "/" + (".parent." + FormatFromPath(storagePath))
  }

  /** extractArchive: the tool is chosen by the path, so it must fit the archive. */
  function Extract(archive: Archive, path: string): Option<Tree> {
    if FormatFromPath(path) == FormatName(archive.format) then Some(archive.tree) else None
  }

  /** A packed tree is unpacked again whatever its format, so the format tag of the
      machine's archive keys loses nothing. */
  lemma PackedTreeIsExtracted(dir: string, id: string, uuid: string, format: Format, tree: Tree)
    requires '/' !in uuid
    ensures Extract(Archive(format, tree), DownloadPath(dir, StoragePath(id, uuid, format))) == Some(tree)
  {
    var stem := "archive_default_" + uuid;
    FormatIsReadBack("builds/" + id, stem, format);
    assert FormatFromPath(StoragePath(id, uuid, format)) == FormatName(format);
    assert ".parent." + FormatName(format) == ".parent" + ("." + FormatName(format));
    FormatIsReadBack(dir, ".parent", format);
  }

  /** The extraction folder: the archive is put there under its own name, the tree
      is written over it, and the name is removed. */
  function Materialized(name: string, archive: Bytes, tree: Tree): Tree {
    (map[name := archive] + tree) - {name}
  }

  /** What is left is the tree exactly when the tree does not use that name. */
  lemma MaterializedIsTree(name: string, archive: Bytes, tree: Tree)
    ensures Materialized(name, archive, tree) == tree <==> name !in tree
  {
  }
}
