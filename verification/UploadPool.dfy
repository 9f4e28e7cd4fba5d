/** The multipart upload of a music file: up to four workers behind one cursor. */
module UploadPool {
  import opened Wrappers

  const MAX_WORKERS := 4

  datatype Part = Part(number: nat, url: string)

  datatype Receipt = Receipt(number: nat, etag: string)

  /** The plan of the server and the size of the file. */
  datatype Upload = Upload(partSize: nat, parts: seq<Part>, size: nat)

  /** One iteration of `while (cursor < upload.parts.length)` after another. */
  datatype Worker = Idle | Sending(part: Part) | Exited | Failed

  /** The complete call is under way with these parts, or it has succeeded. */
  datatype Result = Running | Completing(parts: seq<Receipt>) | Completed(parts: seq<Receipt>) | Aborting

  /** `requests` are the parts that were sent, in order. */
  datatype Pool = Pool(cursor: nat, workers: seq<Worker>, loaded: seq<nat>, completed: seq<Receipt>,
                       requests: seq<Part>, result: Result)

  datatype Step =
    | Claim(worker: nat)
    | Exit(worker: nat)
    | Progress(worker: nat, bytes: nat)
    | Loaded(worker: nat, etag: string)
    | Break(worker: nat)
    | Complete
    | Answer(ok: bool)
    | Abort

  /** Every part has a number of its own between 1 and the number of parts. */
  predicate Numbered(u: Upload) {
    && (forall i :: 0 <= i < |u.parts| ==> 1 <= u.parts[i].number <= |u.parts|)
    && forall i, j :: 0 <= i < j < |u.parts| ==> u.parts[i].number != u.parts[j].number
  }

  /** The parts reach the end of the file. */
  predicate Covers(u: Upload) { u.size <= |u.parts| * u.partSize }

  function Min(a: nat, b: nat): nat { if a <= b then a else b }

  /** blob.slice(index * partSize, min(size, (index + 1) * partSize)): a start behind the end is an empty slice. */
  function SliceStart(u: Upload, index: nat): nat { Min(index * u.partSize, u.size) }

  function SliceEnd(u: Upload, index: nat): nat { Min((index + 1) * u.partSize, u.size) }

  function SliceSize(u: Upload, index: nat): nat {
    if SliceStart(u, index) <= SliceEnd(u, index) then SliceEnd(u, index) - SliceStart(u, index) else 0
  }

  function Total(loaded: seq<nat>): nat {
    if loaded == [] then 0 else Total(loaded[..|loaded| - 1]) + loaded[|loaded| - 1]
  }

  function Zeros(n: nat): (z: seq<nat>)
    ensures |z| == n && forall i :: 0 <= i < n ==> z[i] == 0
  {
    seq(n, i => 0)
  }

  function Started(n: nat): (w: seq<Worker>)
    ensures |w| == n && forall i :: 0 <= i < n ==> w[i] == Idle
  {
    seq(n, i => Idle)
  }

  function Initial(u: Upload): Pool {
    Pool(0, Started(Min(MAX_WORKERS, |u.parts|)), Zeros(|u.parts|), [], [], Running)
  }

  predicate IsSending(u: Upload, p: Pool, worker: nat) {
    worker < |p.workers| && p.workers[worker].Sending? && 0 < p.workers[worker].part.number <= |p.loaded|
  }

  predicate Enabled(u: Upload, p: Pool, step: Step) {
    match step
    case Claim(w) => w < |p.workers| && p.workers[w].Idle? && p.cursor < |u.parts|
    case Exit(w) => w < |p.workers| && p.workers[w].Idle? && p.cursor >= |u.parts|
    case Progress(w, _) => IsSending(u, p, w)
    case Loaded(w, etag) => IsSending(u, p, w) && etag != ""
    case Break(w) => w < |p.workers| && p.workers[w].Sending?
    case Complete => p.result.Running? && forall i :: 0 <= i < |p.workers| ==> p.workers[i].Exited?
    case Answer(_) => p.result.Completing?
    case Abort => p.result.Running? && exists i :: 0 <= i < |p.workers| && p.workers[i].Failed?
  }

  function Next(u: Upload, p: Pool, step: Step): Pool
    requires Enabled(u, p, step)
  {
    match step
    case Claim(w) =>
      var part := u.parts[p.cursor];
      p.(cursor := p.cursor + 1, workers := p.workers[w := Sending(part)], requests := p.requests + [part])
    case Exit(w) => p.(workers := p.workers[w := Exited])
    case Progress(w, bytes) => p.(loaded := p.loaded[p.workers[w].part.number - 1 := bytes])
    case Loaded(w, etag) =>
      var number := p.workers[w].part.number;
      p.(workers := p.workers[w := Idle], loaded := p.loaded[number - 1 := SliceSize(u, number - 1)],
         completed := p.completed + [Receipt(number, etag)])
    case Break(w) => p.(workers := p.workers[w := Failed])
    case Complete => p.(result := Completing(p.completed))
    case Answer(ok) => p.(result := if ok then Completed(p.result.parts) else Aborting)
    case Abort => p.(result := Aborting)
  }

  predicate Legal(u: Upload, p: Pool, steps: seq<Step>)
    decreases |steps|
  {
    steps == [] || (Enabled(u, p, steps[0]) && Legal(u, Next(u, p, steps[0]), steps[1..]))
  }

  function After(u: Upload, p: Pool, steps: seq<Step>): Pool
    requires Legal(u, p, steps)
    decreases |steps|
  {
    if steps == [] then p else After(u, Next(u, p, steps[0]), steps[1..])
  }

  // ---------- the variables of uploadMultipartMusicAsset ----------

  class MultipartUpload {
    const upload: Upload
    const loaded: array<nat>
    var cursor: nat
    var workers: seq<Worker>
    var completed: seq<Receipt>
    var requests: seq<Part>
    var result: Result

    function State(): Pool
      reads this, loaded
    {
      Pool(cursor, workers, loaded[..], completed, requests, result)
    }

    constructor (u: Upload)
      ensures upload == u && State() == Initial(u) && fresh(loaded)
    {
      upload := u;
      loaded := new nat[|u.parts|](i => 0);
      cursor := 0;
      workers := Started(Min(MAX_WORKERS, |u.parts|));
      completed := [];
      requests := [];
      result := Running;
      new;
      assert loaded[..] == Zeros(|u.parts|);
    }

    /** The head of a worker's loop: it claims a part or leaves. */
    method NextPart(w: nat)
      requires w < |workers| && workers[w].Idle?
      modifies this
      ensures State() == Next(upload, old(State()), if old(cursor) < |upload.parts| then Claim(w) else Exit(w))
    {
      if cursor < |upload.parts| {
        var part := upload.parts[cursor];
        cursor := cursor + 1;
        requests := requests + [part];
        workers := workers[w := Sending(part)];
      } else {
        workers := workers[w := Exited];
      }
    }

    /** loaded.reduce((sum, value) => sum + value, 0) / blob.size; None is NaN or an infinity. */
    method Percent() returns (percent: Option<real>)
      ensures percent.Some? <==> upload.size > 0
      ensures percent.Some? ==> percent.value == Total(loaded[..]) as real / upload.size as real
    {
      var sum := 0;
      var i := 0;
      while i < loaded.Length
        invariant 0 <= i <= loaded.Length
        invariant sum == Total(loaded[..i])
      {
        assert loaded[..i + 1][..i] == loaded[..i];
        sum := sum + loaded[i];
        i := i + 1;
      }
      assert loaded[..loaded.Length] == loaded[..];
      if upload.size == 0 {
        return None;
      }
      return Some(sum as real / upload.size as real);
    }

    method OnProgress(w: nat, bytes: nat) returns (percent: Option<real>)
      requires IsSending(upload, State(), w)
      modifies this, loaded
      ensures State() == Next(upload, old(State()), Progress(w, bytes))
      ensures percent.Some? ==> upload.size > 0 && percent.value == Total(State().loaded) as real / upload.size as real
    {
      loaded[workers[w].part.number - 1] := bytes;
      percent := Percent();
    }

    /** request.onload: a status outside 2xx or a missing ETag rejects. */
    method OnLoad(w: nat, status: int, etag: string) returns (percent: Option<real>)
      requires IsSending(upload, State(), w)
      modifies this, loaded
      ensures var rejected := status < 200 || status >= 300 || etag == "";
        State() == Next(upload, old(State()), if rejected then Break(w) else Loaded(w, etag))
      ensures percent.Some? ==> upload.size > 0 && percent.value == Total(State().loaded) as real / upload.size as real
    {
      if status < 200 || status >= 300 || etag == "" {
        workers := workers[w := Failed];
        return None;
      }
      var number := workers[w].part.number;
      loaded[number - 1] := SliceSize(upload, number - 1);
      completed := completed + [Receipt(number, etag)];
      workers := workers[w := Idle];
      percent := Percent();
    }

    method OnError(w: nat)
      requires w < |workers| && workers[w].Sending?
      modifies this
      ensures State() == Next(upload, old(State()), Break(w))
    {
      workers := workers[w := Failed];
    }

    /** The settled Promise.all: complete with what was received, or abort. */
    method Settle()
      requires Enabled(upload, State(), Complete) || Enabled(upload, State(), Abort)
      modifies this
      ensures State() == Next(upload, old(State()), if old(Enabled(upload, State(), Complete)) then Complete else Abort)
    {
      var failed := false;
      var i := 0;
      while i < |workers|
        invariant 0 <= i <= |workers|
        invariant failed <==> exists j :: 0 <= j < i && workers[j].Failed?
      {
        failed := failed || workers[i].Failed?;
        i := i + 1;
      }
      result := if failed then Aborting else Completing(completed);
    }

    /** The response to the complete call; a bad one aborts the upload. */
    method FinishComplete(ok: bool)
      requires Enabled(upload, State(), Answer(ok))
      modifies this
      ensures State() == Next(upload, old(State()), Answer(ok))
    {
      if ok {
        result := Completed(result.parts);
      } else {
        result := Aborting;
      }
    }
  }
}
