/** The identity of a metric request, as the dependency resolvers build it. */
module MetricConfigurations {
  import opened PyValues

  /** A metric name with the domain kwargs (what data) and the value kwargs
      (how to compute). Built with two arguments, it has no value kwargs. */
  datatype MetricConfiguration = MetricConfiguration(
    metricName: string,
    domainKwargs: Kwargs,
    valueKwargs: Kwargs)

  /** What `_get_evaluation_dependencies` returns: a local dependency name
      mapped to the metric that must be computed first. */
  type Dependencies = map<string, MetricConfiguration>
}
