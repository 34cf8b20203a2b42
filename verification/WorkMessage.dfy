/**
 A unit of workspace work as it travels over the stream. A sweep parses the fields of an
 abandoned entry and publishes what it parsed, so a re-queued copy went through both
 directions of this encoding.
 */
module WorkMessage {
  import opened Basics

  type Fields = map<string, string>

  datatype WorkMessage = WorkMessage(kind: string, workspace: string, execution: Option<string>, revision: Option<string>)

  /** `to_dict`: an absent id is left out. */
  function ToFields(m: WorkMessage): Fields {
    map["kind" := m.kind, "workspace_id" := m.workspace] + Field("execution_id", m.execution) + Field("revision_id", m.revision)
  }

  function Field(key: string, id: Option<string>): Fields {
    match id
    case None => map[]
    case Some(v) => map[key := v]
  }

  /** `from_dict`: an empty id is read as an absent one. */
  function FromFields(raw: Fields): WorkMessage {
    WorkMessage(TextAt(raw, "kind"), TextAt(raw, "workspace_id"), IdAt(raw, "execution_id"), IdAt(raw, "revision_id"))
  }

  function TextAt(raw: Fields, key: string): string {
    if key in raw then raw[key] else ""
  }

  function IdAt(raw: Fields, key: string): Option<string> {
    if key in raw && raw[key] != "" then Some(raw[key]) else None
  }

  lemma NamesDiffer()
    ensures "kind" != "workspace_id" && "kind" != "execution_id" && "kind" != "revision_id"
    ensures "workspace_id" != "execution_id" && "workspace_id" != "revision_id" && "execution_id" != "revision_id"
  {
    assert |"kind"| == 4 && |"workspace_id"| == 12 && |"execution_id"| == 12 && |"revision_id"| == 11;
    assert "workspace_id"[0] == 'w' && "execution_id"[0] == 'e';
  }

  /** A message survives the stream if and only if none of its ids is the empty text. */
  lemma RoundTripExactlyWhen(m: WorkMessage)
    ensures FromFields(ToFields(m)) == m <==> m.execution != Some("") && m.revision != Some("")
  {
    NamesDiffer();
  }

  /** Whatever an entry holds, well-formed or not, its re-queued copy is read as the original
      is; and so is a copy of a copy. */
  lemma CopiesReadTheSame(raw: Fields)
    ensures FromFields(ToFields(FromFields(raw))) == FromFields(raw)
  {
    RoundTripExactlyWhen(FromFields(raw));
  }

  const NAMES := {"kind", "workspace_id", "execution_id", "revision_id"}

  /** The copy has the same fields if and only if the original named kind and workspace, no
      empty id and nothing else. */
  lemma CopiesAreEqualExactlyWhen(raw: Fields)
    ensures ToFields(FromFields(raw)) == raw <==>
              && "kind" in raw && "workspace_id" in raw && raw.Keys <= NAMES
              && ("execution_id" in raw ==> raw["execution_id"] != "")
              && ("revision_id" in raw ==> raw["revision_id"] != "")
  {
    NamesDiffer();
  }
}
