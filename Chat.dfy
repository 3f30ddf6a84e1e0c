/** The pieces of the chat platform the handlers read or produce. */
module Chat {
  import opened Wrappers

  /** The author of a message or reaction, as the handlers see it. */
  datatype Author = Author(id: int, name: string, isBot: bool)

  /** A named field of an embed. */
  datatype Field = Field(name: string, value: string)

  /** A text channel of a guild. */
  datatype Channel = Channel(id: int, name: string)

  /** The title, description, fields and footer of an embed. */
  datatype Embed = Embed(title: string, description: string, fields: seq<Field>, footer: string)

  /** `discord.utils.get(channels, name=...)`: the first channel with that name. */
  function FindChannel(channels: seq<Channel>, name: string): (r: Option<Channel>)
    ensures r.None? <==> forall i :: 0 <= i < |channels| ==> channels[i].name != name
    ensures r.Some? ==> exists i :: 0 <= i < |channels| && channels[i] == r.value
                         && r.value.name == name
                         && forall j :: 0 <= j < i ==> channels[j].name != name
    decreases |channels|
  {
    if |channels| == 0 then None
    else if channels[0].name == name then Some(channels[0])
    else
      var r := FindChannel(channels[1..], name);
      if r.Some? then
        ghost var i :| 0 <= i < |channels| - 1 && channels[1..][i] == r.value
                       && r.value.name == name
                       && forall j :: 0 <= j < i ==> channels[1..][j].name != name;
        assert channels[i + 1] == r.value;
        r
      else r
  }
}
