/** Where uploaded artifacts are stored: the path arithmetic of the upload handler. */
module Paths {

  /** `os.path.join(a, b)` for two components on POSIX: a component that starts with
      `/` replaces what came before it; otherwise a `/` goes between the two unless `a`
      is empty or already ends with one. */
  function Join(a: string, b: string): (p: string)
    ensures |b| > 0 && b[0] == '/' ==> p == b
    ensures (|b| == 0 || b[0] != '/') ==> a <= p && (|p| == |a| + |b| || |p| == |a| + 1 + |b|)
  {
    if |b| > 0 && b[0] == '/' then b
    else if a == "" || a[|a| - 1] == '/' then a + b
    else a + "/" + b
  }

  /** The upload directory `ensure_upload_dir` derives from the base directory. */
  function UploadDir(baseDir: string): (dir: string)
    ensures baseDir <= dir && |dir| <= |baseDir| + 8
    ensures |dir| >= 7 && dir[|dir| - 7..] == "uploads"
  {
    Join(baseDir, "uploads")
  }

  /** The path an upload is written to: `{jobId}_{filename}` inside the upload directory. */
  function ArtifactPath(uploadDir: string, jobId: string, filename: string): (path: string)
    ensures (jobId == "" || jobId[0] != '/') ==> uploadDir <= path
    ensures jobId != "" && jobId[0] == '/' ==> path == jobId + "_" + filename
  {
    Join(uploadDir, jobId + "_" + filename)
  }

  /** The characters a version-4 UUID uses in its textual form. */
  const UuidChars: string := "0123456789abcdef-"

  /** The shape of the ids `generate_job_id` hands out: `str(uuid.uuid4())`,
      36 characters drawn from hex digits and dashes. */
  predicate IsUuidText(id: string)
  {
    |id| == 36 && forall i :: 0 <= i < |id| ==> id[i] in UuidChars
  }

  /** The directory part the two-component join puts in front of a relative name. */
  function DirPrefix(a: string): string
  {
    if a == "" || a[|a| - 1] == '/' then a else a + "/"
  }

  /** A relative name is appended to the directory prefix. */
  lemma JoinRelative(a: string, b: string)
    requires |b| > 0 && b[0] != '/'
    ensures Join(a, b) == DirPrefix(a) + b
  {
  }

  /** Whatever the directory, the joined path ends with the name that was joined. */
  lemma JoinEndsWithName(a: string, b: string)
    ensures var p := Join(a, b); |b| <= |p| && p[|p| - |b|..] == b
  {
  }

  /** The stored file is always named `{jobId}_{filename}`, whatever the directory. */
  lemma ArtifactPathEndsWithName(uploadDir: string, jobId: string, filename: string)
    ensures var path, name := ArtifactPath(uploadDir, jobId, filename), jobId + "_" + filename;
      |name| <= |path| && path[|path| - |name|..] == name
  {
  }

  /** Every artifact path of a job extends the job's own prefix `{jobId}_` inside the
      upload directory, whatever the uploaded file name. */
  lemma ArtifactPathExtendsJobPrefix(uploadDir: string, jobId: string, filename: string)
    ensures ArtifactPath(uploadDir, jobId, "") <= ArtifactPath(uploadDir, jobId, filename)
  {
  }

  /** A uuid-shaped id never starts with `/`, so joining it is never absolute. */
  lemma UuidIsRelative(id: string)
    requires IsUuidText(id)
    ensures id[0] != '/'
  {
    assert id[0] in UuidChars;
  }

  /** Two jobs with distinct uuid-shaped ids never share an artifact: no path of one
      extends the prefix of the other, so one upload cannot overwrite another's file,
      even when both uploaded files have the same name. */
  lemma ArtifactPathsDisjoint(uploadDir: string, a: string, b: string, filename: string)
    requires IsUuidText(a) && IsUuidText(b) && a != b
    ensures !(ArtifactPath(uploadDir, a, "") <= ArtifactPath(uploadDir, b, filename))
  {
    UuidIsRelative(a);
    UuidIsRelative(b);
    var s := DirPrefix(uploadDir);
    var na, nb := a + "_" + "", b + "_" + filename;
    JoinRelative(uploadDir, na);
    JoinRelative(uploadDir, nb);
    SameIdAfterPrefix(s, na, nb, 36);
    assert na[..36] == a && nb[..36] == b;
  }

  /** If `s + x` is a prefix of `s + y`, the first `n` characters of `x` and `y` agree. */
  lemma SameIdAfterPrefix(s: string, x: string, y: string, n: nat)
    requires n <= |x| && n <= |y|
    ensures s + x <= s + y ==> x[..n] == y[..n]
  {
    if s + x <= s + y {
      assert forall i :: 0 <= i < n ==> x[i] == (s + x)[|s| + i] == (s + y)[|s| + i] == y[i];
    }
  }

  /** Without the uuid shape the namespacing fails: an id that contains `_` lets two
      different jobs write the same file. */
  lemma UnderscoreIdsCollide()
    ensures ArtifactPath("uploads", "a", "b_c") == ArtifactPath("uploads", "a_b", "c")
  {
  }
}
