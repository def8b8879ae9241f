/** The time-to-live constants of the app's configuration, in seconds. */
module Settings {
  const WeatherApiTtl: int := 1800      // 30 minutes
  const SurfApiTtl: int := 1800         // 30 minutes
  const EventsApiTtl: int := 3600       // 1 hour
  const NewsApiTtl: int := 3600         // 1 hour
  const QuicklinksApiTtl: int := 604800 // 1 week
  const ConferenceTtl: int := 21600     // 6 hours
  const DataSagaTtl: int := 60          // pause between two refresh cycles
}
