/**
 * The asset pre-baking script: `create_composite` pastes a full figure onto
 * a background and saves the result, and the script runs it over a fixed
 * list of jobs, each failure reported and contained in its own job.
 * The file system is a value mapping paths to files; Pillow's decoding,
 * resampling and alpha compositing are abstracted into `Picture` terms.
 */
module Composites {
  import opened Wrappers
  import Geometry
  import Catalog
  import Text

  /** What an image shows: a source photo, or a figure pasted onto a base at a placement. */
  datatype Picture =
    | Photo(source: string)
    | Pasted(base: Picture, figure: Picture, placement: Geometry.Placement)

  /** A file as `Image.open` sees it: a decodable image of some size, or not an image. */
  datatype File = Raster(width: nat, height: nat, picture: Picture) | Corrupt(reason: string)

  type Disk = map<string, File>

  datatype Job = Job(avatar: string, background: string, output: string, scale: Geometry.Scale)

  /** The line each call reports: a missing source, a created file, or the caught exception. */
  datatype Report =
    | Missing(output: string)
    | Created(output: string)
    | Failed(output: string, message: string)

  /** 0.85, the default scale, used for adult figures. */
  const AdultScale: Geometry.Scale := Geometry.Ratio(17, 20)
  /** 0.65, used for the child proxy. */
  const ChildScale: Geometry.Scale := Geometry.Ratio(13, 20)

  /** The five calls at the bottom of the script, in order. */
  const Batch: seq<Job> := [
    Job("woman.png", "bedroom.png", "woman_bedroom.png", AdultScale),
    Job("pregnant.png", "livingroom.png", "pregnant_living_room.png", AdultScale),
    Job("pregnant.png", "bedroom.png", "pregnant_bedroom.png", AdultScale),
    Job("woman.png", "livingroom.png", "child_living_room.png", ChildScale),
    Job("woman.png", "bedroom.png", "child_bedroom.png", ChildScale)
  ]

  /**
   * `create_composite`: with both sources present and decodable, the figure is
   * sized and anchored by `FigurePlacement` and the background, with the figure
   * pasted on, is saved at the output path. `imagingFault` stands for an
   * exception raised by resizing, pasting or saving.
   */
  function CreateComposite(disk: Disk, job: Job, imagingFault: Option<string>): (r: (Report, Disk))
    ensures r.0.output == job.output
    ensures r.0.Missing? <==> job.avatar !in disk || job.background !in disk
    ensures !r.0.Created? ==> r.1 == disk
    ensures r.0.Created? <==>
      && job.avatar in disk && disk[job.avatar].Raster? && disk[job.avatar].height > 0
      && job.background in disk && disk[job.background].Raster?
      && imagingFault.None?
    ensures r.0.Created? ==>
      var avatar, bg := disk[job.avatar], disk[job.background];
      && r.1.Keys == disk.Keys + {job.output}
      && (forall p :: p in disk && p != job.output ==> r.1[p] == disk[p])
      && r.1[job.output] == Raster(bg.width, bg.height, Pasted(bg.picture, avatar.picture,
           Geometry.FigurePlacement(bg.width, bg.height, avatar.width, avatar.height, job.scale)))
  {
    if job.avatar !in disk || job.background !in disk then
      (Missing(job.output), disk)
    else
      match (disk[job.avatar], disk[job.background])
      case (Corrupt(reason), _) => (Failed(job.output, reason), disk)
      case (_, Corrupt(reason)) => (Failed(job.output, reason), disk)
      case (Raster(avW, avH, figure), Raster(bgW, bgH, base)) =>
        if avH == 0 then (Failed(job.output, Text.DivisionByZero), disk)
        else if imagingFault.Some? then (Failed(job.output, imagingFault.value), disk)
        else
          var placement := Geometry.FigurePlacement(bgW, bgH, avW, avH, job.scale);
          (Created(job.output), disk[job.output := Raster(bgW, bgH, Pasted(base, figure, placement))])
  }

  /** The output paths of the first `n` jobs. */
  function Outputs(jobs: seq<Job>, n: nat): set<string>
    requires n <= |jobs|
  {
    set k | 0 <= k < n :: jobs[k].output
  }

  /** The file system after the first `n` jobs have run. */
  function DiskAfter(disk: Disk, jobs: seq<Job>, faults: seq<Option<string>>, n: nat): Disk
    requires n <= |jobs| == |faults|
    decreases n
  {
    if n == 0 then disk
    else CreateComposite(DiskAfter(disk, jobs, faults, n - 1), jobs[n - 1], faults[n - 1]).1
  }

  /** What the job at `k` reports, run on the files its predecessors left. */
  function ReportAt(disk: Disk, jobs: seq<Job>, faults: seq<Option<string>>, k: nat): (r: Report)
    requires k < |jobs| == |faults|
    ensures r.output == jobs[k].output
    ensures r.Missing? <==> jobs[k].avatar !in DiskAfter(disk, jobs, faults, k) || jobs[k].background !in DiskAfter(disk, jobs, faults, k)
  {
    CreateComposite(DiskAfter(disk, jobs, faults, k), jobs[k], faults[k]).0
  }

  /** Running jobs removes no file and adds only paths that those jobs write. */
  lemma {:induction false} DiskAfterKeys(disk: Disk, jobs: seq<Job>, faults: seq<Option<string>>, n: nat)
    requires n <= |jobs| == |faults|
    ensures disk.Keys <= DiskAfter(disk, jobs, faults, n).Keys <= disk.Keys + Outputs(jobs, n)
    decreases n
  {
    if n > 0 {
      DiskAfterKeys(disk, jobs, faults, n - 1);
      assert Outputs(jobs, n) == Outputs(jobs, n - 1) + {jobs[n - 1].output};
    }
  }

  /** Running job `i` on the files its predecessors left gives its report and the next files. */
  lemma NextStep(disk: Disk, jobs: seq<Job>, faults: seq<Option<string>>, i: nat)
    requires i < |jobs| == |faults|
    ensures CreateComposite(DiskAfter(disk, jobs, faults, i), jobs[i], faults[i])
         == (ReportAt(disk, jobs, faults, i), DiskAfter(disk, jobs, faults, i + 1))
  {
  }

  /**
   * The script body: every job runs, on the files left by the jobs before it,
   * whatever those reported; a failing job is reported and the batch goes on.
   */
  method RunBatch(disk: Disk, jobs: seq<Job>, faults: seq<Option<string>>)
    returns (reports: seq<Report>, last: Disk)
    requires |faults| == |jobs|
    ensures |reports| == |jobs|
    ensures forall i :: 0 <= i < |jobs| ==> reports[i] == ReportAt(disk, jobs, faults, i)
    ensures last == DiskAfter(disk, jobs, faults, |jobs|)
  {
    reports, last := [], disk;
    var i := 0;
    while i < |jobs|
      invariant 0 <= i <= |jobs|
      invariant |reports| == i
      invariant last == DiskAfter(disk, jobs, faults, i)
      invariant forall k :: 0 <= k < i ==> reports[k] == ReportAt(disk, jobs, faults, k)
    {
      var step := CreateComposite(last, jobs[i], faults[i]);
      NextStep(disk, jobs, faults, i);
      reports, last := reports + [step.0], step.1;
      i := i + 1;
    }
  }

  predicate SameFile(d1: Disk, d2: Disk, p: string)
  {
    (p in d1 <==> p in d2) && (p in d1 ==> d1[p] == d2[p])
  }

  /** A call looks at its two sources only. */
  lemma ReportDependsOnSources(d1: Disk, d2: Disk, job: Job, fault: Option<string>)
    requires SameFile(d1, d2, job.avatar) && SameFile(d1, d2, job.background)
    ensures CreateComposite(d1, job, fault).0 == CreateComposite(d2, job, fault).0
  {
  }

  /** Running jobs leaves every path none of them writes as it was. */
  lemma {:induction false} UnwrittenPathKept(disk: Disk, jobs: seq<Job>, faults: seq<Option<string>>, n: nat, p: string)
    requires n <= |jobs| == |faults|
    requires forall k :: 0 <= k < n ==> jobs[k].output != p
    ensures SameFile(DiskAfter(disk, jobs, faults, n), disk, p)
    decreases n
  {
    if n > 0 {
      UnwrittenPathKept(disk, jobs, faults, n - 1, p);
    }
  }

  predicate OutputsAreNotSources(jobs: seq<Job>)
  {
    forall i, k :: 0 <= i < |jobs| && 0 <= k < |jobs| ==>
      jobs[i].output != jobs[k].avatar && jobs[i].output != jobs[k].background
  }

  /**
   * Failure isolation in the strong sense: when no job writes a file another
   * reads, each job reports what it would report run alone on the initial files.
   */
  lemma IndependentJobs(disk: Disk, jobs: seq<Job>, faults: seq<Option<string>>, i: nat)
    requires |faults| == |jobs| && i < |jobs|
    requires OutputsAreNotSources(jobs)
    ensures ReportAt(disk, jobs, faults, i) == CreateComposite(disk, jobs[i], faults[i]).0
  {
    UnwrittenPathKept(disk, jobs, faults, i, jobs[i].avatar);
    UnwrittenPathKept(disk, jobs, faults, i, jobs[i].background);
    ReportDependsOnSources(DiskAfter(disk, jobs, faults, i), disk, jobs[i], faults[i]);
  }

  /** The script's own jobs never read what another writes. */
  lemma BatchJobsIndependent()
    ensures OutputsAreNotSources(Batch)
  {
  }

  /** Every scale the script uses is at most 1, so no figure is taller than its background. */
  lemma BatchFiguresFitHeight(i: nat, bgW: nat, bgH: nat, avW: nat, avH: nat)
    requires i < |Batch| && avH > 0
    ensures Geometry.FigurePlacement(bgW, bgH, avW, avH, Batch[i].scale).height <= bgH
  {
    Geometry.FigureWithinHeight(bgW, bgH, avW, avH, Batch[i].scale);
  }

  /** The script produces scene images of the asset catalog. */
  lemma BatchProducesCatalogScenes(i: nat)
    requires i < |Batch|
    ensures exists c :: c in Catalog.DefaultAssets && Batch[i].output in Catalog.Paths(Catalog.DefaultAssets[c])
  {
    var c := ["femme", "enceinte", "enceinte", "enfant", "enfant"][i];
    var k := [1, 0, 1, 0, 1][i];
    assert Catalog.Paths(Catalog.DefaultAssets[c])[k] == Batch[i].output;
  }
}
