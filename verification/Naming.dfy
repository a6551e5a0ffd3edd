/** How the session store names the file of a blob, and how that name is read back. */
module Naming {
  import opened Wrappers

  const UPLOAD: string := "upload"

  function Digit(d: nat): char
    requires d < 10
  {
    '0' + d as char
  }

  /** `std::to_string` of an unsigned number. */
  function Decimal(n: nat): string {
    if n < 10 then [Digit(n)] else Decimal(n / 10) + [Digit(n % 10)]
  }

  predicate IsDigit(c: char) {
    '0' <= c <= '9'
  }

  predicate IsNumeral(s: string) {
    s != "" && forall i | 0 <= i < |s| :: IsDigit(s[i])
  }

  function ParseDecimal(s: string): nat
    requires forall i | 0 <= i < |s| :: IsDigit(s[i])
  {
    if s == "" then 0
    else
      var last := s[|s| - 1];
      assert IsDigit(last);
      10 * ParseDecimal(s[..|s| - 1]) + (last - '0') as nat
  }

  /** The numeral is read back, and has no zeros in front. */
  lemma {:induction false} DecimalReadsBack(n: nat)
    ensures IsNumeral(Decimal(n)) && ParseDecimal(Decimal(n)) == n
    ensures Decimal(n)[0] == '0' <==> n == 0
    ensures n == 0 ==> |Decimal(n)| == 1
  {
    var d := Decimal(n);
    if n < 10 {
      assert d[..|d| - 1] == "";
    } else {
      DecimalReadsBack(n / 10);
      assert d[..|d| - 1] == Decimal(n / 10);
    }
  }

  function BlobName(prefix: string, id: nat): string {
    prefix + "_" + Decimal(id)
  }

  /** `operator/` on paths: a separator goes in unless the directory already ends with one. */
  function Join(dir: string, name: string): string {
    if dir == "" || dir[|dir| - 1] == '/' then dir + name else dir + "/" + name
  }

  function BlobPath(dir: string, prefix: string, id: nat): string {
    Join(dir, BlobName(prefix, id))
  }

  function UploadPath(dir: string, id: nat): string {
    BlobPath(dir, UPLOAD, id)
  }

  /** The paths below a directory. */
  predicate InStore(dir: string, path: string) {
    Join(dir, "") <= path
  }

  /** Cuts a text at the last place where `c` stands. */
  function SplitAtLast(text: string, c: char): Option<(string, string)> {
    if text == "" then None
    else
      var front, last := text[..|text| - 1], text[|text| - 1];
      if last == c then Some((front, ""))
      else match SplitAtLast(front, c)
        case None => None
        case Some((before, after)) => Some((before, after + [last]))
  }

  function ParseName(name: string): Option<(string, nat)> {
    match SplitAtLast(name, '_')
    case None => None
    case Some((prefix, digits)) =>
      if IsNumeral(digits) then Some((prefix, ParseDecimal(digits))) else None
  }

  lemma {:induction false} SplitFindsSeparator(before: string, c: char, after: string)
    requires c !in after
    ensures SplitAtLast(before + [c] + after, c) == Some((before, after))
  {
    var text := before + [c] + after;
    if after == "" {
      assert text[..|text| - 1] == before;
    } else {
      var front := after[..|after| - 1];
      SplitFindsSeparator(before, c, front);
      assert text[..|text| - 1] == before + [c] + front;
      assert front + [after[|after| - 1]] == after;
    }
  }

  /** A blob file name is read back whatever the prefix is, underscores included; its number has no zeros in front. */
  lemma NameReadsBack(prefix: string, id: nat)
    ensures ParseName(BlobName(prefix, id)) == Some((prefix, id))
    ensures var cut := SplitAtLast(BlobName(prefix, id), '_'); cut.Some? && (cut.value.1[0] == '0' ==> cut.value.1 == "0")
  {
    DecimalReadsBack(id);
    SplitFindsSeparator(prefix, '_', Decimal(id));
  }

  predicate EndsWithSlash(dir: string) {
    dir != "" && dir[|dir| - 1] == '/'
  }

  /** The file lies in the directory itself: cut at the last separator, its path gives the directory and the name. */
  lemma PathCutsAtSlash(dir: string, prefix: string, id: nat)
    requires '/' !in prefix
    ensures dir != "" ==>
              SplitAtLast(BlobPath(dir, prefix, id), '/') == Some((if EndsWithSlash(dir) then dir[..|dir| - 1] else dir, BlobName(prefix, id)))
    ensures dir == "" ==> BlobPath(dir, prefix, id) == BlobName(prefix, id)
  {
    hide SplitAtLast, BlobName;
    NameHasNoSlash(prefix, id);
    var within := if EndsWithSlash(dir) then dir[..|dir| - 1] else dir;
    if dir != "" {
      SplitFindsSeparator(within, '/', BlobName(prefix, id));
      assert EndsWithSlash(dir) ==> within + ['/'] == dir;
    }
  }

  lemma NameHasNoSlash(prefix: string, id: nat)
    requires '/' !in prefix
    ensures '/' !in BlobName(prefix, id)
  {
    hide Decimal, ParseDecimal;
    DecimalReadsBack(id);
  }

  /** A path is below a directory if it goes on after it and a separator; a longer name beside it is not. */
  lemma InStoreExactlyWhen(dir: string, path: string)
    requires dir != ""
    ensures InStore(dir, path) <==> if EndsWithSlash(dir) then dir <= path else dir + "/" <= path
  {
    assert dir + "" == dir && dir + "/" + "" == dir + "/";
  }

  /** Concretely, of the twelfth upload. */
  lemma TwelfthUpload()
    ensures UploadPath("/tmp/store", 12) == "/tmp/store/upload_12" && !InStore("/tmp/store", "/tmp/storehouse/x")
  {
    assert Decimal(12) == Decimal(1) + [Digit(2)] == "12";
    assert "/tmp/store"[|"/tmp/store"| - 1] == 'e';
    InStoreExactlyWhen("/tmp/store", "/tmp/storehouse/x");
    assert ("/tmp/store" + "/")[10] == '/' && "/tmp/storehouse/x"[10] == 'h';
  }

  /** Distinct blobs of one directory live in distinct files below it. */
  lemma PathsAreDistinct(dir: string, p1: string, id1: nat, p2: string, id2: nat)
    ensures BlobPath(dir, p1, id1) == BlobPath(dir, p2, id2) <==> p1 == p2 && id1 == id2
    ensures InStore(dir, BlobPath(dir, p1, id1))
  {
    hide BlobName, ParseName, SplitAtLast;
    var n1, n2 := BlobName(p1, id1), BlobName(p2, id2);
    NameReadsBack(p1, id1);
    NameReadsBack(p2, id2);
    var cut := |Join(dir, "")|;
    assert Join(dir, n1)[cut..] == n1 && Join(dir, n2)[cut..] == n2;
  }
}
