/** client/zip.go createZIP: the job's raw data is a zip archive of four
    result files, each stored uncompressed. The archive writer is a class whose
    entries are what has been written so far; the byte layout of the finished
    archive and the points where the writer fails are the `ZipLib` oracle. */
module Zip {
  import opened Wrappers
  import opened Host
  import opened Stage
  import Jobs
  import Eman2

  /** zip.Store, the "stored" compression method (no compression), section
      4.4.5 of the PKWARE .ZIP File Format Specification. */
  const Store: nat := 0

  /** File mode 0600: read and write for the owner only. */
  const Mode: nat := 0x180

  /** What zip.FileHeader carries here. */
  datatype Header = Header(name: string, compression: nat, mode: nat, size: nat, modTime: Jobs.Instant)

  /** One entry of an archive: its header and its body. */
  datatype Entry = Entry(header: Header, body: string)

  /** archive/zip: the bytes of the finished archive, and whether creating or
      writing entry `k` or closing the archive fails. */
  datatype ZipLib = ZipLib(
    layout: seq<Entry> -> string,
    createFails: nat -> bool,
    writeFails: nat -> bool,
    closeFails: bool
  )

  /** zip.Writer over a bytes.Buffer. */
  class Writer {
    /** The entries written so far, each with the body written to it. */
    var entries: seq<Entry>
    const lib: ZipLib

    constructor (lib: ZipLib)
      ensures entries == [] && this.lib == lib
    {
      entries := [];
      this.lib := lib;
    }

    /** Writer.CreateHeader: starts a new, empty entry. */
    method CreateHeader(h: Header) returns (ok: bool)
      modifies this
      ensures ok == !lib.createFails(|old(entries)|)
      ensures entries == if ok then old(entries) + [Entry(h, "")] else old(entries)
    {
      ok := !lib.createFails(|entries|);
      if ok {
        entries := entries + [Entry(h, "")];
      }
    }

    /** Writing to the entry last created: its body grows by `data`. */
    method Write(data: string) returns (ok: bool)
      requires entries != []
      modifies this
      ensures ok == !lib.writeFails(|old(entries)| - 1)
      ensures var last := old(entries)[|old(entries)| - 1];
        entries == if ok then old(entries)[..|old(entries)| - 1] + [Entry(last.header, last.body + data)]
                   else old(entries)
    {
      ok := !lib.writeFails(|entries| - 1);
      if ok {
        var last := entries[|entries| - 1];
        entries := entries[..|entries| - 1] + [Entry(last.header, last.body + data)];
      }
    }

    /** Writer.Close: the finished archive's bytes. */
    method Close() returns (data: string, ok: bool)
      ensures ok == !lib.closeFails
      ensures data == if ok then lib.layout(entries) else ""
    {
      ok := !lib.closeFails;
      data := if ok then lib.layout(entries) else "";
    }
  }

  /** `workDir/spt_01/fsc_0.txt`. */
  function FscDataPath(workDir: string): string {
    PathJoin(PathJoin(workDir, "spt_01"), "fsc_0.txt")
  }

  /** The files of the archive, by name and body, in order. */
  function Files(j: Jobs.JobValue, finalAvg: string, fsc01: string): seq<(string, string)> {
    [("density-map.ccp4", j.densityMap), ("final_avg_ali2ref.hdf", finalAvg), ("fsc.png", j.fscChart),
     ("fsc_01.txt", fsc01)]
  }

  /** The header createZIP gives a file whose body is `body`, at time `t`. */
  function HeaderOf(name: string, body: string, t: Jobs.Instant): Header {
    Header(name, Store, Mode, |body|, t)
  }

  /** The entries of the archive; `clock(k)` is the time when entry `k` is made. */
  function Entries(files: seq<(string, string)>, clock: nat -> Jobs.Instant): (es: seq<Entry>)
    ensures |es| == |files|
    ensures forall k :: 0 <= k < |files| ==> es[k] == Entry(HeaderOf(files[k].0, files[k].1, clock(k)), files[k].1)
  {
    if files == [] then []
    else
      var n := |files| - 1;
      Entries(files[..n], clock) + [Entry(HeaderOf(files[n].0, files[n].1, clock(n)), files[n].1)]
  }

  /** The archive holds exactly four entries, in order: the job's density map,
      the final average, the FSC chart and the FSC data. Every entry is stored
      uncompressed, has mode 0600, and its size is its body's length. */
  lemma ArchiveEntries(j: Jobs.JobValue, finalAvg: string, fsc01: string, clock: nat -> Jobs.Instant)
    ensures var es := Entries(Files(j, finalAvg, fsc01), clock);
      && |es| == 4
      && es[0].header.name == "density-map.ccp4" && es[0].body == j.densityMap
      && es[1].header.name == "final_avg_ali2ref.hdf" && es[1].body == finalAvg
      && es[2].header.name == "fsc.png" && es[2].body == j.fscChart
      && es[3].header.name == "fsc_01.txt" && es[3].body == fsc01
      && forall k :: 0 <= k < 4 ==>
           es[k].header.compression == Store && es[k].header.mode == Mode && es[k].header.size == |es[k].body|
  {
  }

  /** Whether making entry `k` fails. */
  predicate EntryFails(lib: ZipLib, k: nat) {
    lib.createFails(k) || lib.writeFails(k)
  }

  /** One round of createZIP's entry loop: a header for the file, then its
      body. */
  method WriteEntry(w: Writer, name: string, body: string, t: Jobs.Instant) returns (ok: bool)
    modifies w
    ensures ok == !EntryFails(w.lib, |old(w.entries)|)
    ensures ok ==> w.entries == old(w.entries) + [Entry(HeaderOf(name, body, t), body)]
  {
    ok := w.CreateHeader(HeaderOf(name, body, t));
    if !ok {
      return false;
    }
    ok := w.Write(body);
    assert "" + body == body;
  }

  /** The entry loop of createZIP: each file gets a header and its body; the
      first failure stops it. */
  method WriteEntries(w: Writer, files: seq<(string, string)>, clock: nat -> Jobs.Instant) returns (ok: bool)
    requires w.entries == []
    modifies w
    ensures ok <==> forall k :: 0 <= k < |files| ==> !EntryFails(w.lib, k)
    ensures ok ==> w.entries == Entries(files, clock)
  {
    var i := 0;
    while i < |files|
      invariant 0 <= i <= |files|
      invariant w.entries == Entries(files[..i], clock)
      invariant forall k :: 0 <= k < i ==> !EntryFails(w.lib, k)
    {
      var (name, body) := files[i];
      ok := WriteEntry(w, name, body, clock(i));
      if !ok {
        return false;
      }
      assert files[..i + 1][..i] == files[..i];
      i := i + 1;
    }
    assert files[..i] == files;
    return true;
  }

  /** createZIP: a missing final average or FSC data file is an error, as is any
      failure of the archive writer; in every error case the job's raw data is
      unchanged. Otherwise the raw data is the archive of the four files. */
  method CreateZip(host: Machine, job: Jobs.Job, workDir: string, lib: ZipLib, clock: nat -> Jobs.Instant)
    returns (err: Option<StageError>)
    modifies job
    ensures var avg := Eman2.FinalAverage(workDir);
      var fsc := FscDataPath(workDir);
      if avg !in host.files || fsc !in host.files then
        err == Some(ReadFailed) && job.state == old(job.state)
      else
        var files := Files(old(job.state), host.files[avg], host.files[fsc]);
        if (exists k :: 0 <= k < 4 && EntryFails(lib, k)) || lib.closeFails then
          err == Some(ArchiveFailed) && job.state == old(job.state)
        else
          err == None && job.state == old(job.state).(rawData := lib.layout(Entries(files, clock)))
  {
    var finalAvg, read := host.ReadFile(PathJoin(PathJoin(workDir, "spt_01"), "final_avg_ali2ref.hdf"));
    if !read {
      return Some(ReadFailed);
    }
    var fsc01, readFsc := host.ReadFile(PathJoin(PathJoin(workDir, "spt_01"), "fsc_0.txt"));
    if !readFsc {
      return Some(ReadFailed);
    }
    var files := Files(job.state, finalAvg, fsc01);
    var w := new Writer(lib);
    var ok := WriteEntries(w, files, clock);
    if !ok {
      return Some(ArchiveFailed);
    }
    var data, closed := w.Close();
    if !closed {
      return Some(ArchiveFailed);
    }
    job.state := job.state.(rawData := data);
    return None;
  }
}
