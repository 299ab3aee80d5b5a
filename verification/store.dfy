/** The metric history (`DeepNetTrainer.metrics`), the model-parameter snapshot, and the
    two artifacts per basename that `save_trainer_state`/`load_trainer_state` write and read. */
module Store {
  import opened Base

  /** The model's learnable parameters, abstracted to the number of optimizer updates
      applied to them: two snapshots differ exactly when training moved them apart. */
  datatype Params = Params(updates: nat)

  /** `dict(train=OrderedDict(losses=[...], ...), valid=OrderedDict(losses=[...], ...))`.
      The `losses` lists are always present, so they are fields of their own; other
      metrics (the accuracy tracker's `acc`) live in the per-phase maps. Training losses
      are always numbers, validation losses may be `None`. */
  datatype Metrics = Metrics(
    trainLosses: seq<real>,
    validLosses: seq<Option<real>>,
    train: map<string, seq<real>>,
    valid: map<string, seq<real>>)

  /** The history a new trainer starts with (line 36). */
  function Fresh(): (m: Metrics)
    ensures |m.trainLosses| == 0 && |m.validLosses| == 0
    ensures m.train.Keys == {} && m.valid.Keys == {}
  {
    Metrics([], [], map[], map[])
  }

  /** One loss per phase for every completed epoch. */
  predicate Aligned(m: Metrics) {
    |m.trainLosses| == |m.validLosses|
  }

  /** Files on disk: `<basename>.model` and `<basename>.histo`, keyed by basename (the
      suffixes are fixed, so distinct basenames never share a file). */
  datatype Disk = Disk(models: map<string, Params>, histos: map<string, Metrics>)

  /** `save_trainer_state` (lines 367-369): both artifacts are (over)written. */
  function SaveTrainerState(disk: Disk, basename: string, params: Params, metrics: Metrics): (d: Disk)
    ensures basename in d.models && d.models[basename] == params
    ensures basename in d.histos && d.histos[basename] == metrics
    ensures d.models.Keys == disk.models.Keys + {basename}
    ensures d.histos.Keys == disk.histos.Keys + {basename}
    ensures forall b :: b in disk.models && b != basename ==> d.models[b] == disk.models[b]
    ensures forall b :: b in disk.histos && b != basename ==> d.histos[b] == disk.histos[b]
  {
    Disk(disk.models[basename := params], disk.histos[basename := metrics])
  }

  /** `load_trainer_state` (lines 361-364): the parameters come from `<basename>.model`
      (a missing file raises); the history is replaced by `metrics.update(...)` with the
      pickled dict when `<basename>.histo` exists. Every pickled history carries both
      phases, so the top-level update replaces both of them wholesale: metric names
      registered since the save are dropped, not merged. */
  function LoadTrainerState(disk: Disk, basename: string, params: Params, metrics: Metrics): (r: Result<(Params, Metrics)>)
    ensures r.Ok? <==> basename in disk.models
    ensures r.Err? ==> r.error == FileMissing(basename + ".model")
    ensures r.Ok? ==> r.value.0 == disk.models[basename]
    ensures r.Ok? && basename in disk.histos ==> r.value.1 == disk.histos[basename]
    ensures r.Ok? && basename !in disk.histos ==> r.value.1 == metrics
  {
    if basename !in disk.models then Err(FileMissing(basename + ".model"))
    else
      var loaded := if basename in disk.histos then disk.histos[basename] else metrics;
      Ok((disk.models[basename], loaded))
  }

  /** Loading what was just saved returns exactly the saved parameters and history,
      whatever the live model held before. */
  lemma SaveLoadRoundTrip(disk: Disk, basename: string, saved: Params, history: Metrics, live: Params, current: Metrics)
    ensures LoadTrainerState(SaveTrainerState(disk, basename, saved, history), basename, live, current) == Ok((saved, history))
  {
  }

  /** Saving under one basename leaves what loads from another untouched. */
  lemma SaveIsolated(disk: Disk, basename: string, other: string, params: Params, metrics: Metrics, live: Params, current: Metrics)
    requires other != basename
    ensures LoadTrainerState(SaveTrainerState(disk, basename, params, metrics), other, live, current)
         == LoadTrainerState(disk, other, live, current)
  {
  }
}
