/**
  The parts of the pipeline settings (`MainSettings`) that the router and the
  project paths read: the general section and the two training sections.
 */
module Settings {

  datatype General = General(
    projectName: string,
    extIp: string,
    extPort: nat,
    inferIp: string,
    inferPort: nat,
    s3Usage: bool)

  /** Either training section: whether it runs and the name of the model it saves. */
  datatype Training = Training(train: bool, outputModelName: string)

  datatype MainSettings = MainSettings(
    general: General,
    trainRelevance: Training,
    trainKpi: Training)

  /** A JSON-like value, the shape of a pydantic `model_dump()`. */
  datatype Value =
    | Str(s: string)
    | Int(i: int)
    | Bool(b: bool)
    | Obj(fields: map<string, Value>)

  function DumpGeneral(g: General): map<string, Value> {
    map[
      "project_name" := Str(g.projectName),
      "ext_ip" := Str(g.extIp),
      "ext_port" := Int(g.extPort),
      "infer_ip" := Str(g.inferIp),
      "infer_port" := Int(g.inferPort),
      "s3_usage" := Bool(g.s3Usage)
    ]
  }

  function DumpTraining(t: Training): map<string, Value> {
    map["train" := Bool(t.train), "output_model_name" := Str(t.outputModelName)]
  }

  /** `model_dump()`: one nested object per settings section. */
  function ModelDump(s: MainSettings): map<string, Value> {
    map[
      "general" := Obj(DumpGeneral(s.general)),
      "train_relevance" := Obj(DumpTraining(s.trainRelevance)),
      "train_kpi" := Obj(DumpTraining(s.trainKpi))
    ]
  }
}
