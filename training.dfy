/**
 * The training bookkeeping of `training.py`: collected training examples,
 * the latest model record per model type, and per-type version lists numbered
 * 1, 2, 3, ... .
 */
module Training {
  import opened Wrappers
  import opened Seqs

  /** A JSON-like record with string keys, as the training data and parameters are. */
  type Fields = map<string, string>

  /** `{'data_type', 'data', 'label'}`. */
  datatype Example = Example(dataType: string, data: Fields, labelText: string)

  /** The record forwarded to the knowledge base's `create_feedback`. */
  datatype FeedbackRecord = FeedbackRecord(dataType: string, data: Fields, labelText: string, source: string)

  /** The placeholder model: `{'type', 'params', 'trained_on'}`. */
  datatype Model = Model(modelType: string, params: Option<Fields>, trainedOn: nat)

  /** `{'model', 'version'}`. */
  datatype ModelVersion = ModelVersion(model: Model, version: nat)

  /** `{'model_type', 'tested_on'}`; the constant accuracy is not modelled. */
  datatype Evaluation = Evaluation(modelType: string, testedOn: nat)

  /** The versions are numbered 1, 2, 3, ... in list order. */
  ghost predicate NumberedFromOne(versions: seq<ModelVersion>)
  {
    forall i :: 0 <= i < |versions| ==> versions[i].version == i + 1
  }

  class TrainingManager {
    var models: map<string, Model>
    var trainingData: seq<Example>
    var modelVersions: map<string, seq<ModelVersion>>
    /** The records passed to the knowledge base's `create_feedback`, in call order. */
    var feedbackSent: seq<FeedbackRecord>

    /**
     * Every trained type has a non-empty version list numbered from 1 whose last
     * entry holds the current model, and no other type has a model.
     */
    ghost predicate Valid()
      reads this
    {
      && models.Keys == modelVersions.Keys
      && forall t :: t in modelVersions ==>
           && |modelVersions[t]| > 0
           && NumberedFromOne(modelVersions[t])
           && modelVersions[t][|modelVersions[t]| - 1].model == models[t]
    }

    /** `TrainingManager(kb)`: no data, no models, no versions. */
    constructor ()
      ensures Valid()
      ensures models == map[] && trainingData == [] && modelVersions == map[] && feedbackSent == []
    {
      models := map[];
      trainingData := [];
      modelVersions := map[];
      feedbackSent := [];
    }

    /** `collect_training_example`: appends one example and forwards one feedback record tagged `'training'`. */
    method CollectTrainingExample(dataType: string, data: Fields, labelText: string)
      requires Valid()
      modifies this
      ensures Valid()
      ensures trainingData == old(trainingData) + [Example(dataType, data, labelText)]
      ensures feedbackSent == old(feedbackSent) + [FeedbackRecord(dataType, data, labelText, "training")]
      ensures models == old(models) && modelVersions == old(modelVersions)
    {
      trainingData := trainingData + [Example(dataType, data, labelText)];
      feedbackSent := feedbackSent + [FeedbackRecord(dataType, data, labelText, "training")];
    }

    /** `list_model_versions`: the version list of `modelType`, empty for a type never trained. */
    function ListModelVersions(modelType: string): (versions: seq<ModelVersion>)
      reads this
      ensures modelType !in modelVersions ==> versions == []
      ensures Valid() ==> NumberedFromOne(versions)
      ensures Valid() && modelType in models ==>
        |versions| > 0 && versions[|versions| - 1].model == models[modelType]
    {
      if modelType in modelVersions then modelVersions[modelType] else []
    }

    /**
     * `train_model`: records a model trained on the current number of examples
     * as the type's model and as its next version, numbered one past the last;
     * the examples and the other types are untouched.
     */
    method TrainModel(modelType: string, params: Option<Fields>) returns (model: Model)
      requires Valid()
      modifies this
      ensures Valid()
      ensures model == Model(modelType, params, |trainingData|)
      ensures models == old(models)[modelType := model]
      ensures modelVersions == old(modelVersions)[modelType :=
        old(ListModelVersions(modelType)) + [ModelVersion(model, |old(ListModelVersions(modelType))| + 1)]]
      ensures trainingData == old(trainingData) && feedbackSent == old(feedbackSent)
    {
      model := Model(modelType, params, |trainingData|);
      models := models[modelType := model];
      var versions := if modelType in modelVersions then modelVersions[modelType] else [];
      var extended := versions + [ModelVersion(model, |versions| + 1)];
      assert NumberedFromOne(extended) by {
        assert NumberedFromOne(versions);
        assert forall i :: 0 <= i < |versions| ==> extended[i] == versions[i];
      }
      modelVersions := modelVersions[modelType := extended];
    }

    /** `evaluate_model`: nothing for a type without a model, otherwise the type and the test-set size. */
    function EvaluateModel(modelType: string, testData: seq<Fields>): (r: Option<Evaluation>)
      reads this
      ensures r.None? <==> modelType !in models
      ensures r.Some? ==> r.value.modelType == modelType && r.value.testedOn == |testData|
    {
      if modelType in models then Some(Evaluation(modelType, |testData|)) else None
    }

    /** `list_models`: every type that has a model, each once. */
    method ListModels() returns (types: seq<string>)
      ensures forall t :: t in types <==> t in models
      ensures NoDuplicates(types)
    {
      types := SetToSeq(models.Keys);
    }
  }

  /** Training a type twice from scratch gives the versions 1 and 2, as a client sees it. */
  method TrainTwice() returns (versions: seq<ModelVersion>)
    ensures |versions| == 2 && versions[0].version == 1 && versions[1].version == 2
  {
    var tm := new TrainingManager();
    var _ := tm.TrainModel("dummy_model", None);
    var _ := tm.TrainModel("dummy_model", None);
    versions := tm.ListModelVersions("dummy_model");
  }
}
