/** Artifact paths and the write-once store: app/documents/storage.py. */
module Storage {
  import opened Base

  type Bytes = seq<bv8>

  datatype Format = Pdf | Docx

  function Extension(f: Format): string {
    match f case Pdf => "pdf" case Docx => "docx"
  }

  function Magic(f: Format): Bytes {
    match f case Pdf => [0x25, 0x50, 0x44, 0x46, 0x2D] case Docx => [0x50, 0x4B, 0x03, 0x04]
  }

  // ------------------------------------------------------------------- paths

  predicate Space(c: char) {
    c == ' ' || '\t' <= c <= '\r'
  }

  predicate Alphanumeric(c: char) {
    'A' <= c <= 'Z' || 'a' <= c <= 'z' || '0' <= c <= '9'
  }

  function Strip(s: string): string
    decreases |s|
  {
    if s == [] then []
    else if Space(s[0]) then Strip(s[1..])
    else if Space(s[|s| - 1]) then Strip(s[..|s| - 1])
    else s
  }

  predicate Identifier(s: string) {
    && 1 <= |s| <= 128 && Alphanumeric(s[0])
    && (forall i :: 0 <= i < |s| ==> Alphanumeric(s[i]) || s[i] == '_' || s[i] == '.' || s[i] == '-')
    && (forall i, j :: 0 <= i < j < |s| && s[i] == '.' && s[j] == '.' ==> i + 1 < j)
  }

  /** `safe_component`. */
  function SafeComponent(value: string): Option<string> {
    if Identifier(Strip(value)) then Some(Strip(value)) else None
  }

  function ArtifactName(kind: string): Option<string> {
    if kind == "RESUME" then Some("resume") else if kind == "COVER_LETTER" then Some("cover-letter") else None
  }

  function Digit(d: nat): char
    requires d < 10
  {
    ('0' as int + d) as char
  }

  function Decimal(n: nat): string {
    if n < 10 then [Digit(n)] else Decimal(n / 10) + [Digit(n % 10)]
  }

  function FileName(name: string, version: nat, fmt: Format): string {
    name + "-v" + (Decimal(version) + "." + Extension(fmt))
  }

  /** A path by its parts; `Render` is the text under which the file is stored. */
  datatype Path = Path(tenant: string, co: string, prep: string, name: string, version: nat, fmt: Format)

  /** `relative_path`. */
  function RelativePath(tenant: string, co: string, prep: string, kind: string, fmt: Format,
                        version: int): (r: Option<Path>)
    ensures r.Some? <==>
      && 1 <= version && kind in {"RESUME", "COVER_LETTER"}
      && Identifier(Strip(tenant)) && Identifier(Strip(co)) && Identifier(Strip(prep))
    ensures r.Some? ==>
      && WellFormed(r.value) && r.value.version == version && r.value.fmt == fmt
      && r.value.tenant == Strip(tenant) && r.value.co == Strip(co) && r.value.prep == Strip(prep)
  {
    var name := ArtifactName(kind);
    var t, c, p := SafeComponent(tenant), SafeComponent(co), SafeComponent(prep);
    if name.None? || version < 1 || t.None? || c.None? || p.None? then None
    else Some(Path(t.value, c.value, p.value, name.value, version, fmt))
  }

  predicate WellFormed(x: Path) {
    && Identifier(x.tenant) && Identifier(x.co) && Identifier(x.prep)
    && x.name in {"resume", "cover-letter"} && 1 <= x.version
  }

  function Render(x: Path): string {
    Join(x.tenant, x.co, x.prep, FileName(x.name, x.version, x.fmt))
  }

  function Join(a: string, b: string, c: string, d: string): string {
    a + "/" + (b + "/" + (c + "/" + d))
  }

  // -------------------------------------------------------- paths are distinct

  /** A separator that the parts before it do not contain splits a string in one way only. */
  lemma SplitOnce(a: string, x: string, b: string, y: string, sep: char)
    requires sep !in a && sep !in b && a + [sep] + x == b + [sep] + y
    ensures a == b && x == y
  {
    var s := a + [sep] + x;
    assert s[|a|] == sep && s[|b|] == sep;
    assert forall i :: 0 <= i < |a| ==> s[i] == a[i];
    assert forall i :: 0 <= i < |b| ==> s[i] == b[i];
    assert |a| == |b|;
    assert a == s[..|a|] && b == s[..|b|] && x == s[|a| + 1..] && y == s[|b| + 1..];
  }

  lemma {:induction false} DecimalPlain(n: nat)
    ensures Decimal(n) != [] && '.' !in Decimal(n)
  {
    if 10 <= n {
      DecimalPlain(n / 10);
    }
  }

  lemma {:induction false} DecimalInjective(m: nat, n: nat)
    requires Decimal(m) == Decimal(n)
    ensures m == n
  {
    var s := Decimal(m);
    if 10 <= m && 10 <= n {
      assert Decimal(m / 10) == s[..|s| - 1] == Decimal(n / 10);
      assert Digit(m % 10) == s[|s| - 1] == Digit(n % 10);
      DecimalInjective(m / 10, n / 10);
    } else if 10 <= m {
      DecimalPlain(m / 10);
    } else if 10 <= n {
      DecimalPlain(n / 10);
    }
  }

  lemma VersionsSplit(m: nat, f: Format, n: nat, g: Format)
    requires Decimal(m) + "." + Extension(f) == Decimal(n) + "." + Extension(g)
    ensures m == n && f == g
  {
    DecimalPlain(m);
    DecimalPlain(n);
    SplitOnce(Decimal(m), Extension(f), Decimal(n), Extension(g), '.');
    DecimalInjective(m, n);
    assert |Extension(Pdf)| != |Extension(Docx)|;
  }

  lemma FileNamesDistinct(a: string, m: nat, f: Format, b: string, n: nat, g: Format)
    requires a in {"resume", "cover-letter"} && b in {"resume", "cover-letter"}
    requires FileName(a, m, f) == FileName(b, n, g)
    ensures a == b && m == n && f == g
  {
    var x, y := Decimal(m) + "." + Extension(f), Decimal(n) + "." + Extension(g);
    assert FileName(a, m, f)[0] == a[0] && FileName(b, n, g)[0] == b[0];
    assert a == b;
    assert x == FileName(a, m, f)[|a| + 2..] && y == FileName(b, n, g)[|b| + 2..];
    VersionsSplit(m, f, n, g);
  }

  lemma IdentifierPlain(s: string)
    requires Identifier(s)
    ensures '/' !in s
  {
    forall i | 0 <= i < |s| ensures s[i] != '/' {
    }
  }

  lemma FourParts(a: string, b: string, c: string, d: string, a': string, b': string, c': string, d': string)
    requires '/' !in a && '/' !in b && '/' !in c && '/' !in a' && '/' !in b' && '/' !in c'
    requires Join(a, b, c, d) == Join(a', b', c', d')
    ensures a == a' && b == b' && c == c' && d == d'
  {
    SplitOnce(a, b + "/" + (c + "/" + d), a', b' + "/" + (c' + "/" + d'), '/');
    SplitOnce(b, c + "/" + d, b', c' + "/" + d', '/');
    SplitOnce(c, d, c', d', '/');
  }

  /** Two artifacts share a file only if they agree in tenant, opportunity, preparation, type, format and version. */
  lemma PathsDistinct(x: Path, y: Path)
    requires WellFormed(x) && WellFormed(y) && Render(x) == Render(y)
    ensures x == y
  {
    IdentifierPlain(x.tenant); IdentifierPlain(y.tenant);
    IdentifierPlain(x.co); IdentifierPlain(y.co);
    IdentifierPlain(x.prep); IdentifierPlain(y.prep);
    var file, file' := FileName(x.name, x.version, x.fmt), FileName(y.name, y.version, y.fmt);
    FourParts(x.tenant, x.co, x.prep, file, y.tenant, y.co, y.prep, file');
    FileNamesDistinct(x.name, x.version, x.fmt, y.name, y.version, y.fmt);
  }

  // ------------------------------------------------------------------- store

  datatype Problem = FileMissing | FileEmpty | WrongSize | TooLarge | WrongMagic | WrongHash

  predicate StartsWith(data: Bytes, head: Bytes) {
    |head| <= |data| && data[..|head|] == head
  }

  /** The stored file is present and is what was recorded. */
  predicate Intact(files: map<Path, Bytes>, digest: Bytes -> string, maxBytes: nat, path: Path, hash: string,
                   size: nat, fmt: Format) {
    && path in files
    && 0 < |files[path]| == size <= maxBytes
    && StartsWith(files[path], Magic(fmt))
    && digest(files[path]) == hash
  }

  class ArtifactStore {
    var files: map<Path, Bytes>
    const maxBytes: nat
    const digest: Bytes -> string

    constructor (maxBytes: nat, digest: Bytes -> string)
      ensures files == map[] && this.maxBytes == maxBytes && this.digest == digest
    {
      files := map[];
      this.maxBytes := maxBytes;
      this.digest := digest;
    }

    method WriteImmutable(path: Path, data: Bytes) returns (written: bool)
      modifies this
      ensures written <==> path !in old(files)
      ensures files == if written then old(files)[path := data] else old(files)
    {
      if path in files {
        return false;
      }
      files := files[path := data];
      return true;
    }

    method Verify(path: Path, hash: string, size: nat, fmt: Format) returns (problems: seq<Problem>)
      ensures problems == [] <==> Intact(files, digest, maxBytes, path, hash, size, fmt)
    {
      if path !in files {
        return [FileMissing];
      }
      problems := [];
      var data := files[path];
      if |data| == 0 { problems := problems + [FileEmpty]; }
      if |data| != size { problems := problems + [WrongSize]; }
      if |data| > maxBytes { problems := problems + [TooLarge]; }
      var head := if |data| < 8 then data else data[..8];
      if !StartsWith(head, Magic(fmt)) { problems := problems + [WrongMagic]; }
      if |data| > 0 && digest(data) != hash { problems := problems + [WrongHash]; }
    }
  }
}
