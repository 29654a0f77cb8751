// What handlePut, handleDelete and handleGet put into the log (server.cpp), and
// what it does to every store.
module Commands {
  import opened RaftTypes
  import opened Codec

  /** The command of a PUT, with both lengths cut to 16 bits. */
  function PutCommand(key: Bytes, value: Bytes): Command {
    Command(OP_PUT, |key| % U16, |value| % U16, key, value)
  }

  function DeleteCommand(key: Bytes): Command {
    Command(OP_DELETE, |key| % U16, 0, key, [])
  }

  /** The marker of a GET. */
  function GetCommand(): Command { NOOP_COMMAND }

  /** A PUT maps its key to its value, a DELETE unmaps its key, a GET changes nothing. */
  lemma CommandEffects(s: Store, key: Bytes, value: Bytes)
    ensures Apply(s, PutCommand(key, value)) == s[key := value]
    ensures Apply(s, DeleteCommand(key)) == s - {key}
    ensures Apply(s, GetCommand()) == s
  {
  }

  /** On the wire and on disk a PUT is operation 1, a DELETE 2 and a GET's marker 3. */
  lemma OperationCodes(key: Bytes, value: Bytes)
    ensures CommandBytes(PutCommand(key, value))[0] == 1
    ensures CommandBytes(DeleteCommand(key))[0] == 2
    ensures CommandBytes(GetCommand())[0] == 3
  {
  }

  /** They are printed faithfully exactly if the strings are shorter than 65536 bytes. */
  lemma ClientCommandsSized(key: Bytes, value: Bytes)
    ensures SizedCommand(PutCommand(key, value)) <==> |key| < U16 && |value| < U16
    ensures SizedCommand(DeleteCommand(key)) <==> |key| < U16
    ensures SizedCommand(GetCommand())
  {
  }
}
