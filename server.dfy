/**
  The server process: the module-level store of latest readings, the record of
  what was handed to the bus client for publishing, and the three handlers that
  use them (the bus `message` handler, `GET /api/status`, `POST /api/control`).
  Node's event loop runs one handler at a time, so each method is one atomic step.
 */
module App {
  import opened JsString
  import opened Topics
  import opened StateStore
  import opened Snapshot
  import opened Control

  class Server {
    /** Channel key to the latest raw text received on it. */
    var latestSensorData: map<string, string>
    /** Every message handed to the bus client for publishing, oldest first. */
    var published: seq<Message>

    /** At start-up nothing has been received and nothing published. */
    constructor ()
      ensures latestSensorData == map[] && published == []
    {
      latestSensorData := map[];
      published := [];
    }

    /**
      The bus `message` handler: files `message` under the channel key of
      `topic`, overwriting the previous value; every other entry is unchanged.
     */
    method OnMessage(topic: string, message: string)
      modifies this`latestSensorData
      ensures latestSensorData == Ingested(old(latestSensorData), Message(topic, message))
      ensures Lookup(latestSensorData, ChannelKey(topic)) == Some(message)
      ensures forall k :: k != ChannelKey(topic) ==>
        Lookup(latestSensorData, k) == Lookup(old(latestSensorData), k)
    {
      var key := RemoveFirst(topic, TopicPrefix + SensorPath);
      latestSensorData := latestSensorData[key := message];
    }

    /** `GET /api/status`: the snapshot of the store as it is now; nothing changes. */
    method GetStatus() returns (s: Status)
      ensures s == Compute(latestSensorData)
    {
      s := Compute(latestSensorData);
    }

    /**
      `POST /api/control`: an allowed action is published once on the control
      topic and confirmed; anything else is refused and nothing is published.
     */
    method PostControl(action: Option<string>) returns (r: Response)
      modifies this`published
      ensures r == Reply(action)
      ensures published == old(published) + Publishes(action)
      ensures r.code == 200 ==> published == old(published) + [Message(ControlTopic, action.value)]
      ensures r.code == 400 ==> published == old(published)
    {
      if action.Some? && action.value in ["open", "close"] {
        published := published + [Message(TopicPrefix + "control", action.value)];
        r := Response(200, StatusBody(Confirmation(action.value)));
      } else {
        r := Response(400, ErrorBody(InvalidCommand));
      }
    }
  }

  /** What a dashboard client can rely on from the handlers' contracts alone: readings. */
  method StatusSession(v: string)
  {
    var server := new Server();
    var s := server.GetStatus();
    EmptyStoreSnapshot();
    assert s.motion == Detected && s.window == Closed && s.temperature == Placeholder;

    ChannelKeyOfSensorTopic("vibration");
    server.OnMessage(SensorTopic("vibration"), "1");
    server.OnMessage(SensorTopic("vibration"), v);
    assert server.latestSensorData["vibration"] == v;
    s := server.GetStatus();
    DetectionLabels(server.latestSensorData);
    assert s.vibration == Detected <==> v == "1";
  }

  /** What a dashboard client can rely on from the handlers' contracts alone: commands. */
  method ControlSession()
  {
    var server := new Server();
    var r := server.PostControl(Some("open"));
    assert r.code == 200 && server.published == [Message(ControlTopic, "open")];
    r := server.PostControl(Some("delete"));
    assert r.code == 400 && server.published == [Message(ControlTopic, "open")];
    r := server.PostControl(None);
    assert r.code == 400 && |server.published| == 1;
  }
}
