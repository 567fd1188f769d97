/** File transfer through a remote session: the SFTP operations of the session and the
    browser's upload and download loops on top of them. */
module FileTransfer {
  import opened Prelude
  import opened Base64

  const CHUNK := 24000
  const FILE_LIMIT := 128 * 1024 * 1024
  const OFFSET_LIMIT := 1024 * 1024 * 1024 * 1024
  const PATH_LIMIT := 4096

  datatype Result<T> = Ok(value: T) | Err

  /** What a read returns: base64 data and whether the end of the file was reported. */
  datatype Piece = Piece(data: string, eof: bool)

  function Min(a: int, b: int): int { if a < b then a else b }

  function Zeros(n: nat): (z: seq<byte>)
    ensures |z| == n && forall i :: 0 <= i < n ==> z[i] == 0
  {
    seq(n, i => 0)
  }

  /** A file after b has been written at offset; writing nothing does not make it longer. */
  function Written(f: seq<byte>, offset: nat, b: seq<byte>): seq<byte> {
    if b == [] then f else
      var base := if offset <= |f| then f else f + Zeros(offset - |f|);
      base[..offset] + b + base[Min(offset + |b|, |base|)..]
  }

  /** Byte by byte: the new ones at their place, the old ones everywhere else, zeros in a gap. */
  lemma WrittenMeans(f: seq<byte>, offset: nat, b: seq<byte>)
    ensures b == [] ==> Written(f, offset, b) == f
    ensures b != [] ==>
      var w := Written(f, offset, b);
      && |w| == (if offset + |b| > |f| then offset + |b| else |f|)
      && forall i :: 0 <= i < |w| ==>
           w[i] == if offset <= i < offset + |b| then b[i - offset] else if i < |f| then f[i] else 0
  {
    var base := if offset <= |f| then f else f + Zeros(offset - |f|);
    forall i | 0 <= i < |base| ensures base[i] == if i < |f| then f[i] else 0 { }
  }

  /** The session's end: the files of the device. */
  class Remote {
    var files: map<string, seq<byte>>

    constructor (initial: map<string, seq<byte>>)
      ensures files == initial
    {
      files := initial;
    }

    predicate Acceptable(path: string, offset: int) {
      |path| <= PATH_LIMIT && 0 <= offset <= OFFSET_LIMIT
    }

    /** Exclusive creation: an existing file is never touched. */
    method Create(path: string) returns (r: Result<()>)
      modifies this
      ensures r.Ok? <==> |path| <= 4096 && path !in old(files)
      ensures files == if r.Ok? then old(files)[path := []] else old(files)
    {
      if !Acceptable(path, 0) || path in files {
        return Err;
      }
      files := files[path := []];
      r := Ok(());
    }

    method Write(path: string, offset: int, data: string) returns (r: Result<nat>)
      modifies this
      ensures r.Ok? <==>
        && |path| <= 4096 && 0 <= offset <= 1024 * 1024 * 1024 * 1024 && path in old(files)
        && Decode(data).Some? && |Decode(data).value| <= 24000
      ensures r.Ok? ==> files == old(files)[path := Written(old(files)[path], offset, Decode(data).value)]
      ensures r == if r.Ok? then Ok(|Decode(data).value|) else Err
      ensures r.Err? ==> files == old(files)
    {
      var b := Decode(data);
      if !Acceptable(path, offset) || b.None? || |b.value| > CHUNK || path !in files {
        return Err;
      }
      files := files[path := Written(files[path], offset, b.value)];
      r := Ok(|b.value|);
    }

    /** ReadAt reports the end of the file on every short read; on a full read that ends
        exactly there it may or may not, as `early` says. */
    method Read(path: string, offset: int, early: bool) returns (r: Result<Piece>)
      ensures r.Ok? <==> |path| <= 4096 && 0 <= offset <= 1024 * 1024 * 1024 * 1024 && path in files
      ensures r.Ok? ==>
        var f := files[path];
        var start, end := Min(offset, |f|), Min(offset + 24000, |f|);
        && Decode(r.value.data) == Some(f[start..end])
        && (r.value.eof <==> end - start < 24000 || (early && end == |f|))
    {
      if !Acceptable(path, offset) || path !in files {
        return Err;
      }
      var f := files[path];
      var start, end := Min(offset, |f|), Min(offset + CHUNK, |f|);
      RoundTrip(f[start..end]);
      r := Ok(Piece(Encode(f[start..end]), end - start < CHUNK || (early && end == |f|)));
    }
  }

  /** A chunk written at the end of what is there extends it. */
  lemma AppendChunk(src: seq<byte>, offset: nat, end: nat)
    requires offset <= end <= |src|
    ensures Written(src[..offset], offset, src[offset..end]) == src[..end]
  {
    assert src[..offset] + src[offset..end] == src[..end];
  }

  /** One call of the upload loop. */
  method SendChunk(remote: Remote, path: string, src: seq<byte>, offset: nat)
    requires offset < |src| <= FILE_LIMIT && |path| <= PATH_LIMIT
    requires path in remote.files && remote.files[path] == src[..offset]
    modifies remote
    ensures remote.files == old(remote.files)[path := src[..Min(offset + CHUNK, |src|)]]
  {
    var end := Min(offset + CHUNK, |src|);
    RoundTrip(src[offset..end]);
    AppendChunk(src, offset, end);
    var w := remote.Write(path, offset, Encode(src[offset..end]));
  }

  /** The upload loop. The dialog stays open for `rounds` chunks at least; if it is closed
      earlier the file holds exactly the chunks sent so far. */
  method Upload(remote: Remote, path: string, src: seq<byte>, rounds: nat) returns (r: Result<()>)
    modifies remote
    ensures r.Ok? <==> |src| <= 128 * 1024 * 1024 && |path| <= 4096 && path !in old(remote.files)
    ensures r.Ok? ==> remote.files == old(remote.files)[path := src[..Min(rounds * 24000, |src|)]]
    ensures r.Err? ==> remote.files == old(remote.files)
  {
    if |src| > FILE_LIMIT {
      return Err;
    }
    var created := remote.Create(path);
    if created.Err? {
      return Err;
    }
    var offset, sent := 0, 0;
    assert src[..0] == [];
    while offset < |src| && sent < rounds
      invariant 0 <= sent <= rounds && offset == sent * CHUNK && offset < |src| + CHUNK
      invariant remote.files == old(remote.files)[path := src[..Min(offset, |src|)]]
      decreases |src| - offset
    {
      SendChunk(remote, path, src, offset);
      offset, sent := offset + CHUNK, sent + 1;
    }
    r := Ok(());
  }

  /** The download loop, for a file that is not written meanwhile. It ends and returns the
      file exactly when the file has at most 128 MiB, however the end is reported. */
  method Download(remote: Remote, path: string, listed: nat, early: nat -> bool) returns (r: Result<seq<byte>>)
    ensures r.Ok? <==>
      && listed <= 128 * 1024 * 1024 && |path| <= 4096 && path in remote.files
      && |remote.files[path]| <= 128 * 1024 * 1024
    ensures r.Ok? ==> r.value == remote.files[path]
  {
    if listed > FILE_LIMIT {
      return Err;
    }
    var parts: seq<byte> := [];
    var offset, eof := 0, false;
    while !eof
      invariant 0 <= offset <= FILE_LIMIT
      invariant offset > 0 || eof ==> |path| <= PATH_LIMIT && path in remote.files
      invariant path in remote.files ==> offset <= |remote.files[path]| && parts == remote.files[path][..offset]
      invariant offset == |parts|
      invariant eof ==> path in remote.files && offset == |remote.files[path]|
      decreases !eof, FILE_LIMIT - offset
    {
      var part := remote.Read(path, offset, early(offset));
      if part.Err? {
        return Err;
      }
      var b := Decode(part.value.data).value;
      var f := remote.files[path];
      assert f[..offset] + f[offset..Min(offset + CHUNK, |f|)] == f[..Min(offset + CHUNK, |f|)];
      parts := parts + b;
      offset := offset + |b|;
      if offset > FILE_LIMIT {
        return Err;
      }
      eof := part.value.eof;
    }
    assert remote.files[path][..offset] == remote.files[path];
    r := Ok(parts);
  }

  /** What was uploaded comes back, for every file up to 128 MiB: empty ones, exact
      multiples of the chunk size, and however the device reports the end. */
  method UploadThenDownload(remote: Remote, path: string, src: seq<byte>, rounds: nat, early: nat -> bool)
      returns (r: Result<seq<byte>>)
    requires |src| <= 128 * 1024 * 1024 && |path| <= 4096 && path !in remote.files && rounds * 24000 >= |src|
    modifies remote
    ensures r == Ok(src)
    ensures remote.files == old(remote.files)[path := src]
  {
    var up := Upload(remote, path, src, rounds);
    assert src[..|src|] == src;
    r := Download(remote, path, |src|, early);
  }
}
