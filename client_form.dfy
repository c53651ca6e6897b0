/** The client dialog of the ledger variant: a name of at least two
    characters, inserted or updated for the signed-in user. */
module ClientForm {
  import opened Wrappers
  import opened Js
  import opened Backend
  import opened Forms
  import opened Ledger

  /** The row sent to `fet-clients`: `{ ...values, user_id }`. */
  datatype Payload = Payload(name: string, userId: string)

  const NameMessage: string := "Client name must be at least 2 characters."

  /** `z.string().min(2)` counts UTF-16 units: one letter outside the Basic
      Multilingual Plane is already long enough. */
  predicate Accepted(name: string) {
    Utf16Length(name) >= 2
  }

  function Issues(name: string): (r: seq<Issue>)
    ensures r == [] <==> Accepted(name)
    ensures r != [] ==> r == [Issue("name", NameMessage)]
    ensures |name| >= 2 ==> r == []
    ensures name == "" ==> r != []
  {
    if Utf16Length(name) < 2 then [Issue("name", NameMessage)] else []
  }

  /** `client?.name || ""`. */
  function Defaults(client: Option<ClientRow>): (name: string)
    ensures client.None? ==> name == ""
    ensures client.Some? ==> name == client.value.name
  {
    if client.Some? then client.value.name else ""
  }

  function RowId(client: Option<ClientRow>): Option<string> {
    if client.Some? then Some(client.value.id) else None
  }

  class Component {
    var name: string
    var errors: seq<Issue>
    var client: Option<ClientRow>

    constructor (row: Option<ClientRow>)
      ensures name == Defaults(row) && errors == [] && client == row
    {
      name := Defaults(row);
      errors := [];
      client := row;
    }

    /** The effect on a new `client` prop: the name resets to the client's. */
    method SetClient(row: Option<ClientRow>)
      modifies this
      ensures client == row && name == Defaults(row) && errors == []
    {
      client := row;
      name := Defaults(row);
      errors := [];
    }

    /** `form.handleSubmit(onSubmit)`: as in the other forms, except that a
        successful save resets the name to the form's current default,
        which is the edited client's name and not the empty text. */
    method Submit(user: Option<User>, reply: Outcome)
      returns (write: Option<Write<Payload>>, effects: seq<Effect>)
      modifies this
      ensures errors == Issues(old(name)) && client == old(client)
      ensures !Accepted(old(name)) ==> write == None && effects == [] && name == old(name)
      ensures Accepted(old(name)) && user.None? ==> write == None && effects == [] && name == old(name)
      ensures Accepted(old(name)) && user.Some? ==>
        write == Some(WriteFor(RowId(client), Payload(old(name), user.value.id)))
      ensures Accepted(old(name)) && user.Some? && reply.Pass? ==>
        effects == SuccessEffects && name == Defaults(client)
      ensures Accepted(old(name)) && user.Some? && reply.Fail? ==> effects == [] && name == old(name)
    {
      errors := Issues(name);
      write, effects := None, [];
      if errors != [] {
        return;
      }
      if user.Some? {
        write := Some(WriteFor(RowId(client), Payload(name, user.value.id)));
        if reply.Pass? {
          effects := SuccessEffects;
          name := Defaults(client);
        }
      }
    }
  }
}
