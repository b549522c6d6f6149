# cdflow2 simple-AWS config plugin: the pre-release check

This project models `handler/configure_release.go` of the cdflow2 "simple AWS"
config plugin. That file holds the step that runs before a release, plus two
helpers that fill an environment map.

- **ConfigureRelease** runs three stages in a fixed order and stops at the first
  failure:
  1. It looks up the team named by the request's `team` config value.
  2. It validates the input configuration.
  3. It checks the AWS resources.

  A failure at any stage clears the response's `Success` flag. The method always
  returns nil. A resolved team name goes into `AdditionalMetadata["team"]` before
  any later stage runs.
- **CheckAWSResources** lists the S3 buckets once. If the listing fails, it
  returns false at once. Otherwise it runs all three existence checks (release
  bucket, Terraform state bucket, Terraform locks table) without stopping early,
  and counts the failures in `problems`. It writes the `cdflow2 setup` hint only
  when `problems > 0`, and returns `problems == 0`.
- **setAWSEnvironmentVariables** writes the three credential variables and the
  region, under both `AWS_REGION` and `AWS_DEFAULT_REGION`.
- **setCdflowDockerAuthVariables** copies every request entry whose key starts
  with `CDFLOW2_DOCKER_AUTH_`.

Layout:

- `wrappers.dfy` holds `Option` and `Result`.
- `handler.dfy` holds module `ReleaseHandler`. Each operation has two forms:
  - a specification function: `ResourceCheck`, `Configure`, `WithAWSVariables`
    or `WithDockerAuth`;
  - an imperative method that mirrors the Go code and is proved equal to that
    function.

The imperative side:

- `Handler` is a class. It holds the collaborators as constant fields, the error
  stream as a sequence of abstract messages, and a ghost `trace` of the
  collaborator calls it made.
- `ConfigureReleaseResponse` is a class whose `success` and `additionalMetadata`
  fields are updated in place.
- `EnvMap` is a class. It holds a Go `map[string]string`, which the helpers
  mutate through a shared reference.

The Go code reaches its collaborators through calls this model does not contain.
Each one becomes an input:

- the team lookup `getTeam` and the input validation `CheckInputConfiguration`
  are function-valued fields of `Handler`;
- the bucket listing and the three existence checks are the fields of an `Infra`
  value.

`ConfigureRelease` goes straight from input validation to `CheckAWSResources`.
Nothing in this file calls the two env helpers.

## Model

| member | source | states |
|---|---|---|
| `ReleaseHandler.Configure` | handler/configure_release.go:12-33 | If the team lookup fails, the outcome is `Success = false`, metadata untouched, one error message, and no call after the lookup. If the team resolves, `metadata["team"]` is the resolved name even when later stages fail. If input validation fails, `Success` is false and no AWS call is made. When team and input both pass, the calls are the team lookup, then input validation, then exactly the resource check's calls, and the messages are exactly the resource check's messages. The bucket listing happens iff team and input both pass. `Success` is never raised, and it keeps its incoming value exactly when every stage passes. |
| `ReleaseHandler.ConfigureSetupHintOnce` | handler/configure_release.go:27-30 | Across one ConfigureRelease, the setup hint appears once when the team and input passed, the listing worked and some resource is missing. Otherwise it does not appear. |
| `ReleaseHandler.Handler.ConfigureRelease` | handler/configure_release.go:12-33 | The new `Success`, the new `AdditionalMetadata`, the messages appended to the error stream and the calls made are those of `Configure` applied to the old response. The team lookup receives `TeamValue(request.config)`: the `team` entry of `Config`, or `None` (Go's nil) when the key is missing. The returned error is always nil. |
| `ReleaseHandler.ResourceCheck` | handler/configure_release.go:36-73 | If the listing fails, the result is false, only the listing is called, and no setup hint is written. If the listing succeeds, all three checks run in order, the result is true iff `problems == 0`, and the hint is written iff `problems > 0`. The result is true iff the listing worked and all three resources exist. |
| `ReleaseHandler.Problems` | handler/configure_release.go:37-57 | The `problems` counter lies between 0 and 3. It is 0 iff all three checks pass, and 3 iff all three fail. |
| `ReleaseHandler.OccurrencesOfThree` | handler/configure_release.go:46-57 | Counting the failures among the three outcomes is the sum of one increment per failing check, which is what the three `if problems++` blocks compute. |
| `ReleaseHandler.SetupHintOnce` | handler/configure_release.go:67-70 | The setup hint occurs exactly once when the listing worked and `problems > 0`, and never otherwise. |
| `ReleaseHandler.Handler.CheckAWSResources` | handler/configure_release.go:36-73 | The method counts failures in a local `problems` variable and returns `ResourceCheck`'s verdict. It appends exactly `ResourceCheck`'s messages to the error stream and makes exactly its calls. |
| `ReleaseHandler.WithAWSVariables` | handler/configure_release.go:75-82 | The result's keys are the old keys plus the five AWS variable names. The three credential keys hold the credentials. `AWS_REGION` and `AWS_DEFAULT_REGION` both hold the region. Every other key keeps its old value. |
| `ReleaseHandler.WithAWSVariablesIdempotent` | handler/configure_release.go:75-82 | Setting the AWS variables a second time with the same values changes nothing. |
| `ReleaseHandler.EnvMap.SetAWSEnvironmentVariables` | handler/configure_release.go:75-82 | The map after the in-place writes is `WithAWSVariables` of the map before. |
| `ReleaseHandler.WithDockerAuth` | handler/configure_release.go:84-90 | Each request key with prefix `CDFLOW2_DOCKER_AUTH_` ends up holding the request's value. Every other key of the response map keeps its value. No other key is added. |
| `ReleaseHandler.WithDockerAuthIdempotent` | handler/configure_release.go:84-90 | Copying the docker-auth entries a second time changes nothing. |
| `ReleaseHandler.EnvMap.SetCdflowDockerAuthVariables` | handler/configure_release.go:84-90 | The loop visits the request keys in an arbitrary order, as Go map iteration does. Whatever the order, the resulting map is `WithDockerAuth` of the old map and the request map. |

## Left out

- The AWS SDK calls `getS3Client`, `listBuckets`, `handleReleaseBucket`, `handleTfstateBucket` and `handleTflocksTable` are defined outside this file and are not part of this model. Their answers are inputs, given as the `Infra` value.
- The messages those checks write about each resource are not modelled.
- `getTeam` and `CheckInputConfiguration` are defined elsewhere and are not part of this model. Their answers are inputs, and any message `CheckInputConfiguration` writes is not modelled.
- The error stream holds abstract messages (`Header`, `ListError`, `Blank`, `SetupHint`, `TeamError`). The exact text and the terminal underline styling are left out.
- `Config` values are `interface{}` in Go. Here they are strings, and a missing `team` key becomes `None`, the counterpart of Go's nil.
- The request's other fields are not modelled, because this file does not read them.
- The response's `Env` field is not modelled, because this file does not write it.
- Writing into a nil `AdditionalMetadata` map would panic in Go. The model assumes the caller has allocated it.
- A nil `creds` pointer passed to `setAWSEnvironmentVariables` would panic in Go. The model takes the credentials as a plain value with three string fields.
- The commented-out lambda-bucket and ECR-repository checks are dead code and are not modelled.
- `EnvMap.SetAWSEnvironmentVariables` and `EnvMap.SetCdflowDockerAuthVariables`: in Go, writing into a nil `env` or `respEnv` map panics. `setCdflowDockerAuthVariables` panics only when `reqEnv` has a `CDFLOW2_DOCKER_AUTH_` key. An `EnvMap` always holds a map, so the model has no such panic.
- A Go map is a shared reference. Other holders of the same `AdditionalMetadata` map would see the `team` write. The model keeps `AdditionalMetadata` as a map value inside the response object, so that aliasing is not captured.
