/** lib/upload.ts: the URL under which an uploaded file is kept. The file
    system writes are not modelled; only the returned string is. */
module Upload {
  import opened Wrappers
  import opened Js

  newtype Byte = x: int | 0 <= x < 256

  /** An uploaded file: its client-side name, MIME type (possibly empty) and
      contents. */
  datatype File = File(name: string, mimeType: string, bytes: seq<Byte>)

  /** The characters `[a-zA-Z0-9.-]` the sanitiser keeps. */
  predicate Kept(c: char)
  {
    ('a' <= c <= 'z') || ('A' <= c <= 'Z') || ('0' <= c <= '9') || c == '.' || c == '-'
  }

  /** The replacement of one character: itself when kept, otherwise one "_"
      per UTF-16 code unit, since the pattern matches code units. */
  function SanitizeChar(c: char): (r: string)
    ensures Kept(c) ==> r == [c]
    ensures !Kept(c) ==> |r| == Units(c) && forall i :: 0 <= i < |r| ==> r[i] == '_'
  {
    if Kept(c) then [c] else if Units(c) == 1 then "_" else "__"
  }

  /** `name.replace(/[^a-zA-Z0-9.-]/g, "_")`. */
  function Sanitize(name: string): (r: string)
    ensures forall i :: 0 <= i < |r| ==> Kept(r[i]) || r[i] == '_'
    ensures Utf16Length(r) == Utf16Length(name)
    ensures (forall i :: 0 <= i < |name| ==> Kept(name[i])) ==> r == name
  {
    if name == [] then []
    else
      var head := SanitizeChar(name[0]);
      var tail := Sanitize(name[1..]);
      Utf16LengthAppend(head, tail);
      assert Utf16Length(head) == Units(name[0]) by {
        if !Kept(name[0]) && Units(name[0]) == 2 {
          assert head == "__";
        }
      }
      head + tail
  }

  /** A one-character name is replaced as that character is. */
  lemma SanitizeOne(c: char)
    ensures Kept(c) ==> Sanitize([c]) == [c]
    ensures !Kept(c) ==> |Sanitize([c])| == Units(c) && forall i :: 0 <= i < |Sanitize([c])| ==> Sanitize([c])[i] == '_'
  {
    assert [c][1..] == [];
  }

  /** The replacement works character by character: sanitising a
      concatenation sanitises each part in place. */
  lemma {:induction false} SanitizeAppend(a: string, b: string)
    ensures Sanitize(a + b) == Sanitize(a) + Sanitize(b)
  {
    if a == [] {
      assert a + b == b;
    } else {
      assert (a + b)[0] == a[0];
      assert (a + b)[1..] == a[1..] + b;
      SanitizeAppend(a[1..], b);
    }
  }

  /** The sanitiser leaves its own output unchanged. */
  lemma SanitizeIdempotent(name: string)
    ensures Sanitize(Sanitize(name)) == Sanitize(name)
  {
    var r := Sanitize(name);
    SanitizeFixesUnderscores(r);
  }

  /** Strings of kept characters and underscores are fixed points. */
  lemma {:induction false} SanitizeFixesUnderscores(s: string)
    requires forall i :: 0 <= i < |s| ==> Kept(s[i]) || s[i] == '_'
    ensures Sanitize(s) == s
  {
    if s != [] {
      SanitizeFixesUnderscores(s[1..]);
      assert s == [s[0]] + s[1..];
    }
  }

  const LocalPrefix := "/uploads/"
  const DefaultMime := "application/octet-stream"

  /** The deployment setting that selects data-URL storage (`VERCEL`). */
  datatype Env = Env(vercel: Option<string>)

  /** `saveUpload(file)`. `now` stands for `Date.now()` and `base64` for the
      base64 encoding of the contents. */
  function SaveUpload(env: Env, file: File, now: nat, base64: seq<Byte> -> string): (url: string)
    ensures env.vercel == Some("1") ==>
      url == "data:" + (if file.mimeType == "" then DefaultMime else file.mimeType) + ";base64," + base64(file.bytes)
    ensures env.vercel != Some("1") ==>
      && StartsWith(url, LocalPrefix)
      && url[|LocalPrefix|..] == Decimal(now) + "-" + Sanitize(file.name)
      && forall i :: |LocalPrefix| <= i < |url| ==> url[i] != '/'
  {
    if env.vercel == Some("1") then
      var mime := if file.mimeType == "" then DefaultMime else file.mimeType;
      "data:" + mime + ";base64," + base64(file.bytes)
    else
      var safeName := Decimal(now) + "-" + Sanitize(file.name);
      assert forall i :: 0 <= i < |safeName| ==> safeName[i] != '/';
      LocalPrefix + safeName
  }
}
