/** The job submission handler's input checks and job construction
    (server/handlers.go submitJob).

    The uploaded file must be plain text whose every line the scanner reads,
    blank lines included, holds exactly three float tokens (the scanner stops
    silently at a line of 64 KiB or more, and the lines after it go unchecked); the Dmax form value must parse
    as a float and the job name may have at most 255 bytes. An accepted upload
    becomes a queued job. Strings stand for byte slices, so a string's length is
    Go's `len`. */
module Handlers {
  import opened Wrappers
  import opened Text
  import Parser
  import Jobs
  import Base64Url

  datatype SubmitError =
    | NoData
    | BadDmax
    | NotText
    | BadFormat(line: nat)
    | BadNumbers(line: nat)
    | NameTooLong
    | QueueFailed

  /** The error text submitJob returns for each failure. */
  function Message(e: SubmitError): string {
    match e
    case NoData => "Please provide an input data file"
    case BadDmax => "Please provide a float for the maximum particle dimension"
    case NotText => "Invalid input data. Please provide an ascii text file"
    case BadFormat(n) => "Invalid input data format: error on line " + IntToString(n)
    case BadNumbers(n) => "Invalid floating point numbers found on line " + IntToString(n)
    case NameTooLong => "Job name must be less than 255 characters"
    case QueueFailed => "Failed to submit job. Please contact system administrator"
  }

  const MaxNameLength := 255

  /** A line of an acceptable upload: three tokens, each a float. */
  predicate UploadLine(lib: Parser.Lib, l: string) {
    |Fields(l)| == 3 && Parser.AllFloat(lib, Fields(l))
  }

  /** The line check from line `i` on: the first line without three tokens, or
      with a token that is not a float, names the error (counting from 1). */
  function LinesCheck(lib: Parser.Lib, ls: seq<string>, i: nat): Option<SubmitError>
    requires i <= |ls|
    decreases |ls| - i
  {
    if i == |ls| then None
    else
      var parts := Fields(ls[i]);
      if |parts| != 3 then Some(BadFormat(i + 1))
      else if !Parser.AllFloat(lib, parts) then Some(BadNumbers(i + 1))
      else LinesCheck(lib, ls, i + 1)
  }

  /** The line check passes exactly when every line from `i` on is an upload line,
      and an error names the first line from `i` on that is not, with the reason. */
  lemma {:induction false} LinesCheckMeaning(lib: Parser.Lib, ls: seq<string>, i: nat)
    requires i <= |ls|
    ensures LinesCheck(lib, ls, i).None? <==> forall k :: i <= k < |ls| ==> UploadLine(lib, ls[k])
    ensures match LinesCheck(lib, ls, i)
      case Some(BadFormat(n)) =>
        i < n <= |ls| && |Fields(ls[n - 1])| != 3
        && forall k :: i <= k < n - 1 ==> UploadLine(lib, ls[k])
      case Some(BadNumbers(n)) =>
        i < n <= |ls| && |Fields(ls[n - 1])| == 3 && !Parser.AllFloat(lib, Fields(ls[n - 1]))
        && forall k :: i <= k < n - 1 ==> UploadLine(lib, ls[k])
      case Some(_) => false
      case None => true
    decreases |ls| - i
  {
    if i < |ls| && UploadLine(lib, ls[i]) {
      LinesCheckMeaning(lib, ls, i + 1);
    }
  }

  /** What submitJob decides about a submission, in the order it checks: the
      Dmax value on success. */
  function SubmitCheck(lib: Parser.Lib, data: string, dmax: string, name: string): Result<real, SubmitError> {
    if data == [] then Failure(NoData)
    else if lib.parseFloat(dmax).None? then Failure(BadDmax)
    else if !Parser.IsPlainText(lib.detectContentType(data)) then Failure(NotText)
    else
      match LinesCheck(lib, Lines(data), 0)
      case Some(e) => Failure(e)
      case None =>
        if |name| > MaxNameLength then Failure(NameTooLong)
        else Success(lib.parseFloat(dmax).value)
  }

  /** A submission is accepted exactly when the data is non-empty plain text of
      upload lines, Dmax parses and the name is short enough; the result is the
      parsed Dmax. */
  lemma SubmitAccepted(lib: Parser.Lib, data: string, dmax: string, name: string)
    ensures SubmitCheck(lib, data, dmax, name).Success? <==>
              && data != []
              && lib.parseFloat(dmax).Some?
              && Parser.IsPlainText(lib.detectContentType(data))
              && (forall k :: 0 <= k < |Lines(data)| ==> UploadLine(lib, Lines(data)[k]))
              && |name| <= MaxNameLength
    ensures SubmitCheck(lib, data, dmax, name).Success? ==>
              lib.parseFloat(dmax) == Some(SubmitCheck(lib, data, dmax, name).value)
  {
    LinesCheckMeaning(lib, Lines(data), 0);
    if data != [] && lib.parseFloat(dmax).Some? && Parser.IsPlainText(lib.detectContentType(data)) {
      assert SubmitCheck(lib, data, dmax, name)
             == if LinesCheck(lib, Lines(data), 0).Some? then Failure(LinesCheck(lib, Lines(data), 0).value)
                else if |name| > MaxNameLength then Failure(NameTooLong)
                else Success(lib.parseFloat(dmax).value);
    }
  }

  /** The name is only looked at once the data has passed every check. */
  lemma NameCheckedLast(lib: Parser.Lib, data: string, dmax: string, name: string)
    requires SubmitCheck(lib, data, dmax, name) == Failure(NameTooLong)
    ensures data != [] && lib.parseFloat(dmax).Some?
    ensures Parser.IsPlainText(lib.detectContentType(data))
    ensures forall k :: 0 <= k < |Lines(data)| ==> UploadLine(lib, Lines(data)[k])
    ensures |name| > MaxNameLength
  {
    LinesCheckMeaning(lib, Lines(data), 0);
  }

  /** A blank line anywhere in the file is rejected, at the latest on its own
      line number. */
  lemma BlankLineRejected(lib: Parser.Lib, data: string, dmax: string, name: string, k: nat)
    requires k < |Lines(data)| && AllSpace(Lines(data)[k])
    ensures SubmitCheck(lib, data, dmax, name).Failure?
    ensures SubmitCheck(lib, data, dmax, name) == Failure(BadFormat(k + 1)) ==>
              forall j :: 0 <= j < k ==> UploadLine(lib, Lines(data)[j])
  {
    FieldsAllSpace(Lines(data)[k]);
    assert !UploadLine(lib, Lines(data)[k]);
    LinesCheckMeaning(lib, Lines(data), 0);
  }

  /** No text starting with '#' parses as a float, as for Go's ParseFloat. */
  ghost predicate NoHashFloats(lib: Parser.Lib) {
    forall w: string :: lib.parseFloat(w).Some? ==> w == [] || w[0] != '#'
  }

  /** A line of three floats is not a comment line. */
  lemma UploadLineNotSkipped(lib: Parser.Lib, l: string)
    requires UploadLine(lib, l) && NoHashFloats(lib)
    ensures !Parser.Skipped(l)
  {
    FieldsAreFields(l);
    assert lib.parseFloat(Fields(l)[0]).Some?;
    Parser.SkippedTrim(l);
    FieldsTrimSpace(l);
    var t := TrimSpace(l);
    if t != [] {
      FieldsHead(t);
    }
  }

  /** An upload submitJob accepts passes validateDAT with three columns, unless
      its first line is too long for the scanner: then neither loop reads a line,
      submitJob accepts, and validateDAT finds the file empty. */
  lemma UploadPassesDat(lib: Parser.Lib, data: string, dmax: string, name: string)
    requires SubmitCheck(lib, data, dmax, name).Success? && NoHashFloats(lib)
    ensures Lines(data) == [] <==> NewlineAt(data) >= MaxTokenSize
    ensures Parser.DatVerdict(lib, data) == if Lines(data) == [] then Failure(Parser.Empty) else Success(3)
  {
    SubmitAccepted(lib, data, dmax, name);
    var ls := Lines(data);
    LinesEmpty(data);
    if ls != [] {
      forall k | 0 <= k < |ls|
        ensures !Parser.LineBad(lib, ls[k]) && !Parser.Skipped(ls[k])
      {
        assert UploadLine(lib, ls[k]);
        UploadLineNotSkipped(lib, ls[k]);
      }
      Parser.DatLinesMeaning(lib, ls);
      assert !Parser.Skipped(ls[|ls| - 1]);
    }
  }

  /** submitJob as evidently intended: when the scanner stops at a line too long
      for it, the upload is rejected at that line instead of accepted unread. */
  function SubmitCheckFixed(lib: Parser.Lib, data: string, dmax: string, name: string): Result<real, SubmitError> {
    var r := SubmitCheck(lib, data, dmax, name);
    if (r.Success? || r == Failure(NameTooLong)) && !ScansFully(data) then Failure(BadFormat(|Lines(data)| + 1))
    else r
  }

  /** What the fixed check accepts is read to its end, is made of upload lines
      only, and passes validateDAT with three columns. */
  lemma UploadPassesDatFixed(lib: Parser.Lib, data: string, dmax: string, name: string)
    requires SubmitCheckFixed(lib, data, dmax, name).Success? && NoHashFloats(lib)
    ensures ScansFully(data)
    ensures forall k :: 0 <= k < |Lines(data)| ==> UploadLine(lib, Lines(data)[k])
    ensures Parser.DatVerdict(lib, data) == Success(3)
  {
    SubmitAccepted(lib, data, dmax, name);
    UploadPassesDat(lib, data, dmax, name);
  }

  /** submitJob as written accepts an upload whose second line is too long for
      the scanner, whatever text follows that line: none of it is checked. The
      fixed check rejects the same upload at line 2. */
  lemma UnreadLinesAccepted(lib: Parser.Lib, first: string, long: string, rest: string, dmax: string, name: string)
    requires '\n' !in first && |first| < MaxTokenSize && UploadLine(lib, DropCR(first))
    requires '\n' !in long && |long| >= MaxTokenSize
    requires lib.parseFloat(dmax).Some? && |name| <= MaxNameLength
    requires Parser.IsPlainText(lib.detectContentType(first + "\n" + long + rest))
    ensures SubmitCheck(lib, first + "\n" + long + rest, dmax, name).Success?
    ensures SubmitCheckFixed(lib, first + "\n" + long + rest, dmax, name) == Failure(BadFormat(2))
  {
    var data := first + "\n" + (long + rest);
    assert first + "\n" + long + rest == data;
    LinesStop(long, rest);
    LinesCons(first, long + rest);
    assert Lines(data) == [DropCR(first)];
    LinesCheckMeaning(lib, Lines(data), 0);
  }

  /** The checks of submitJob before the job is built: the scanner loop counts
      lines from 1 and stops at the first line that is not three floats. */
  method ValidateSubmission(lib: Parser.Lib, data: string, dmax: string, name: string)
    returns (r: Result<real, SubmitError>)
    ensures r == SubmitCheck(lib, data, dmax, name)
  {
    if |data| == 0 {
      return Failure(NoData);
    }
    var d := lib.parseFloat(dmax);
    if d.None? {
      return Failure(BadDmax);
    }
    if !Parser.IsPlainText(lib.detectContentType(data)) {
      return Failure(NotText);
    }
    var ls := Lines(data);
    var lineno := 0;
    while lineno < |ls|
      invariant lineno <= |ls|
      invariant LinesCheck(lib, ls, 0) == LinesCheck(lib, ls, lineno)
    {
      var parts := Fields(ls[lineno]);
      lineno := lineno + 1;
      if |parts| != 3 {
        return Failure(BadFormat(lineno));
      }
      var ok := Parser.AllFloats(lib, parts);
      if !ok {
        return Failure(BadNumbers(lineno));
      }
    }
    if |name| > MaxNameLength {
      return Failure(NameTooLong);
    }
    return Success(d.value);
  }

  /** The job an accepted submission becomes before it is queued. */
  function Submitted(data: string, d: real, name: string): Jobs.JobValue {
    Jobs.Blank.(inputData := data, dmax := d, name := name)
  }

  /** The end of submitJob: a new job with the field values `v`, queued in
      `store`; a failed queue returns no job and leaves the table as it was. */
  method QueueSubmission(store: Jobs.JobStore, v: Jobs.JobValue,
                         now: Jobs.Instant, random: seq<Base64Url.byte>, fault: Jobs.DbFault)
    returns (r: Result<Jobs.Job, SubmitError>)
    requires |random| == 9
    modifies store
    ensures r.Success? <==> fault == Jobs.NoFault
    ensures r.Failure? ==> store.rows == old(store.rows) && r.error == QueueFailed
    ensures r.Success? ==>
              && fresh(r.value)
              && r.value.state == Jobs.QueuedAs(v, now, random, |old(store.rows)| + 1)
              && store.rows == old(store.rows) + [Jobs.Inserted(r.value.state)]
  {
    var job := new Jobs.Job.Of(v);
    var ok := store.QueueJob(job, now, random, fault);
    if !ok {
      return Failure(QueueFailed);
    }
    return Success(job);
  }

  /** server/handlers.go submitJob: the checks, then a new job with the data,
      Dmax and name, queued in `store`. A rejected submission or a failed queue
      returns no job; a failed queue leaves the table as it was. */
  method SubmitJob(store: Jobs.JobStore, lib: Parser.Lib, data: string, dmax: string, name: string,
                   now: Jobs.Instant, random: seq<Base64Url.byte>, fault: Jobs.DbFault)
    returns (r: Result<Jobs.Job, SubmitError>)
    requires |random| == 9
    modifies store
    ensures r.Success? <==> SubmitCheck(lib, data, dmax, name).Success? && fault == Jobs.NoFault
    ensures r.Failure? ==> store.rows == old(store.rows)
    ensures r.Failure? ==> r.error == match SubmitCheck(lib, data, dmax, name)
                                      case Failure(e) => e
                                      case Success(_) => QueueFailed
    ensures r.Success? ==>
              && fresh(r.value)
              && r.value.state == Jobs.QueuedAs(Submitted(data, SubmitCheck(lib, data, dmax, name).value, name),
                                                now, random, |old(store.rows)| + 1)
              && store.rows == old(store.rows) + [Jobs.Inserted(r.value.state)]
  {
    var v := ValidateSubmission(lib, data, dmax, name);
    if v.Failure? {
      return Failure(v.error);
    }
    r := QueueSubmission(store, Submitted(data, v.value, name), now, random, fault);
  }
}
