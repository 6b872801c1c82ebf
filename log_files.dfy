/** Where the two programs meet: the JSON log files the serial reader writes
    are the ones the dashboard requests, named by the same device and day. */
module LogFiles {
  import opened Wrappers
  import opened Decimal
  import opened Readings
  import Registry
  import Dashboard
  import SensorReader

  /** The URL the dashboard requests for a device and day is the reader's
      file of that device and day, under `/sensor_logs/`, with the cache
      buster appended: `getTodayDateStr` and `%Y-%m-%d` write the same date. */
  lemma DashboardRequestsReaderFile(device: string, d: CalendarDay, now: nat)
    ensures Dashboard.LogUrl(device, d, now) == "/sensor_logs/" + SensorReader.FileName(device, d) + "?t=" + NatText(now)
  {
    FourDigitText(d.year);
    assert Dashboard.TodayDateStr(d) == SensorReader.DateStr(d);
    UrlLayout(device, SensorReader.DateStr(d), NatText(now));
  }

  lemma UrlLayout(device: string, date: string, stamp: string)
    ensures "/sensor_logs/" + device + "_" + date + ".json?t=" + stamp
         == "/sensor_logs/" + (device + "_" + date + ".json") + "?t=" + stamp
  {
    assert ".json?t=" == ".json" + "?t=";
  }

  /** Every device the dashboard polls is one the reader accepts, so each
      polled URL names a file the reader may write. */
  lemma PolledDevicesAreRead()
    ensures forall i :: 0 <= i < |Registry.DeviceIDs| ==> Registry.DeviceIDs[i] in SensorReader.ValidDevices
  {
  }

  /** The dashboard maps `adlab06` to `Cube5`, but the reader rejects that
      device, so in any state the reader keeps, an `adlab06` file of any day
      holds no entry. */
  lemma Cube5DeviceNeverLogged(s: SensorReader.ReaderState, d: CalendarDay)
    requires SensorReader.Valid(s)
    ensures Registry.CubeForDevice("adlab06") == Some("Cube5")
    ensures "adlab06" !in s.logs
    ensures SensorReader.FileName("adlab06", d) in s.files ==> s.files[SensorReader.FileName("adlab06", d)] == []
  {
    assert "adlab06" !in SensorReader.ValidDevices;
  }
}
