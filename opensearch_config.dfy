/** The configuration of the OpenSearch vector store: its seven fields, their
    defaults, and the validator that refuses any key outside them. */
module OpenSearchConfig {
  import opened Wrappers
  import opened JsonValue

  /** The declared fields, in declaration order. */
  const FieldNames: seq<string> :=
    ["host", "collection_name", "use_iam", "embedding_model_dims", "secret_arn", "username", "password"]

  /** The names of the declared fields, as a set. */
  const AllowedFields: set<string> := set f | f in FieldNames

  /** The configuration itself; unset optional fields are None. */
  datatype AWSOpenSearchConfig = AWSOpenSearchConfig(
    host: Option<string>,
    collectionName: string,
    useIam: bool,
    embeddingModelDims: Option<int>,
    secretArn: Option<string>,
    username: Option<string>,
    password: Option<string>)

  /** A configuration built from no input at all. */
  const Defaults: AWSOpenSearchConfig :=
    AWSOpenSearchConfig(None, "mem0", false, None, None, None, None)

  /** Seven distinct fields; only the collection name and the IAM switch have
      a value when nothing is given, "mem0" and off. */
  lemma DeclaredFields()
    ensures |AllowedFields| == |FieldNames| == 7
    ensures Defaults.collectionName == "mem0" && !Defaults.useIam
    ensures Defaults.host.None? && Defaults.embeddingModelDims.None? && Defaults.secretArn.None?
    ensures Defaults.username.None? && Defaults.password.None?
  {
    assert AllowedFields == {"host", "collection_name", "use_iam", "embedding_model_dims", "secret_arn", "username", "password"} by {
      assert forall f :: f in FieldNames <==>
        f == "host" || f == "collection_name" || f == "use_iam" || f == "embedding_model_dims"
        || f == "secret_arn" || f == "username" || f == "password";
    }
  }

  /** The input keys that are not fields. */
  function ExtraFields(values: Dict): (r: set<string>)
    ensures forall k :: k in r <==> k in Keys(values) && k !in FieldNames
  {
    Keys(values) - AllowedFields
  }

  /** `validate_extra_fields`: the input, untouched, when every key names a
      field; otherwise an error carrying the unknown keys. */
  function ValidateExtraFields(values: Dict): (r: Result<Dict, set<string>>)
    ensures r.Success? <==> forall i :: 0 <= i < |values| ==> values[i].0 in FieldNames
    ensures r.Success? ==> r.value == values
    ensures r.Failure? ==> r.error == ExtraFields(values) && r.error != {}
  {
    OnlyFieldKeys(values);
    var extra := ExtraFields(values);
    if extra != {} then Failure(extra) else Success(values)
  }

  /** Each key of a dict is in its key set, and each member of the key set
      is the key of some entry. */
  lemma OnlyFieldKeys(values: Dict)
    ensures (forall i :: 0 <= i < |values| ==> values[i].0 in FieldNames) <==> Keys(values) <= AllowedFields
  {
    if forall i :: 0 <= i < |values| ==> values[i].0 in FieldNames {
      forall k | k in Keys(values) ensures k in AllowedFields {
        KeysMembership(values, k);
      }
    } else {
      var i :| 0 <= i < |values| && values[i].0 !in FieldNames;
      KeysMembership(values, values[i].0);
    }
  }

  /** The empty input and any input naming only fields pass; one unknown key
      is enough to fail, and it is reported. */
  lemma ValidateExtraFieldsExamples(values: Dict, k: string, v: Json)
    requires k !in FieldNames
    ensures ValidateExtraFields([]) == Success([])
    ensures ValidateExtraFields([("host", Str("localhost")), ("use_iam", Bool(true))]).Success?
    ensures var r := ValidateExtraFields(values + [(k, v)]); r.Failure? && k in r.error
  {
    KeysMembership(values + [(k, v)], k);
    assert (values + [(k, v)])[|values|].0 == k;
  }
}
