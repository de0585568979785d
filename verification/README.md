# get-emp-status: salary metrics engine, TTL cache and bearer check in Dafny

This project models the logic at the core of the employee-status service:

- **The salary metrics engine** (`app/process_status.py`). Each monthly amount is scaled
  by season: December ×1.10, June to August ×0.95. The engine then sums the adjusted
  amounts and takes their maximum. It deducts 7% only when the exact total is strictly
  above 10000, and divides the after-tax total by the count. Every output is quantized
  to two decimals, rounding half up. An average is classified GREEN above 2000, ORANGE
  at exactly 2000 and RED below. Module `ProcessStatus`, with the rounding in module
  `Decimals`.
- **The response cache** (`app/cache.py`). It is a keyed store whose entries expire
  `ttl` seconds after they were written. Module `Cache`, class `TTLCache`.
- **The bearer-token check** (`app/validator.py`). When no token is configured, every
  request passes. Otherwise the `Authorization` header must read `Bearer <token>`, and
  every failure is HTTP 401. Module `Validator`.

Python `Decimal` values are exact `real`s. `quantize(Decimal('0.01'), ROUND_HALF_UP)`
is `Decimals.Round2`: the nearest whole number of cents, with ties going away from
zero. The wall clock read by the cache is an explicit `now` argument. The configured
token and the request header are explicit arguments of the check.

The response schema `MetricsOut` (`app/schema.py:13-19`) declares both an `average`
and an `averageAfterTax` field, and the handler reads `metrics["averageAfterTax"]`
(`app/api.py:55` and `app/api.py:57`). The engine itself, which this project models,
follows `app/process_status.py:19-27`:

- The metrics record has a single `average`, taken over the after-tax total.
- There is no pre-tax average and no `averageAfterTax` field.

So in `ProcessStatus.ExampleSeasonalTaxed` (months 12, 6 and 1 at 5000 each) the
`average` is 4727.50, the after-tax mean, where the pre-tax mean would have been 5083.33.

## Model

| member | source | states |
|---|---|---|
| `Decimals.Round2` | app/process_status.py:20-27 | the result is a whole number of cents within half a cent of the input; a tie goes away from zero (half-open bounds on each side of zero) |
| `Decimals.Round2Unique` | app/process_status.py:20-27 | those bounds pick out exactly one cent value, so Round2 is the round-half-up quantization and nothing else |
| `Decimals.Round2OfCents` | app/process_status.py:20-27 | a value that already has two decimals is unchanged by quantization |
| `Decimals.Round2Monotone` | app/process_status.py:20-27 | quantization never reverses the order of two values |
| `ProcessStatus.AdjustByMonth` | app/process_status.py:4-9 | December ×1.10, months 6-8 ×0.95, every other month unchanged; for a positive amount, it grows iff December and shrinks iff summer; a non-negative amount stays within [0.95a, 1.10a] |
| `ProcessStatus.Adjusted` | app/process_status.py:12 | one adjusted amount per record, in input order |
| `ProcessStatus.Sum` | app/process_status.py:16 | the total of non-negative amounts is non-negative |
| `ProcessStatus.Max` | app/process_status.py:17 | the result is an element of the list and is at least every element |
| `ProcessStatus.AfterTax` | app/process_status.py:18 | strictly above 10000 the total becomes 93% of itself and drops; at or below 10000 it is unchanged |
| `ProcessStatus.ComputeMetrics` | app/process_status.py:11-28 | count is the number of records; empty input gives all zeros; otherwise sum is the rounded exact total, sumAfterTax the rounded after-tax total and average the rounded after-tax total over the count; every money field has two decimals; sumAfterTax never exceeds sum |
| `ProcessStatus.StatusFromAverage` | app/process_status.py:30-35 | GREEN iff avg > 2000, ORANGE iff avg == 2000, RED iff avg < 2000 |
| `ProcessStatus.TaxRule` | app/process_status.py:18-25 | a total strictly above 10000 gives sumAfterTax = Round2(0.93·total); a total at or below 10000, including exactly 10000, gives sumAfterTax == sum |
| `ProcessStatus.TaxBand` | app/process_status.py:18-25 | when the tax fires, 0.92·sum < sumAfterTax < 0.94·sum despite rounding |
| `ProcessStatus.AverageOfAfterTaxTotal` | app/process_status.py:16-26 | sum rounds the exact total once; average rounds the exact after-tax total over the count, so it is within half a cent of the exact after-tax mean |
| `ProcessStatus.HighestIsAdjustedMaximum` | app/process_status.py:12-27 | highest is Round2 of one adjusted amount that is at least every adjusted amount, and at least every rounded adjusted amount |
| `ProcessStatus.NonNegativeMetrics` | app/process_status.py:11-28 | non-negative amounts give non-negative sum, sumAfterTax, average and highest |
| `ProcessStatus.NonNegativeAggregates` | app/process_status.py:16-19 | the unrounded after-tax total, mean and maximum of non-negative amounts are non-negative |
| `ProcessStatus.SumAtMostRepeatedBound` | app/process_status.py:16 | a total is at most the count times any upper bound of the amounts |
| `ProcessStatus.AverageAtMostHighest` | app/process_status.py:16-27 | the average never exceeds highest |
| `ProcessStatus.SumConcat` | app/process_status.py:16 | the sum of a concatenation is the sum of the parts |
| `ProcessStatus.SumPermutation` | app/process_status.py:16 | the total depends only on the multiset of amounts |
| `ProcessStatus.MaxPermutation` | app/process_status.py:17 | the maximum depends only on the multiset of amounts |
| `ProcessStatus.AdjustedConcat` | app/process_status.py:12 | adjusting a concatenation adjusts each part |
| `ProcessStatus.AdjustedPermutation` | app/process_status.py:12 | permuting the records permutes the adjusted amounts |
| `ProcessStatus.ComputeMetricsPermutation` | app/process_status.py:11-28 | permuting the records changes no field of the result |
| `ProcessStatus.StatusMonotone` | app/process_status.py:30-35 | a larger average never gets a worse label (RED < ORANGE < GREEN) |
| `ProcessStatus.ExampleRed` | tests/test_rules.py:31-38 | three January-March records of 1500 give sum 4500, average 1500, status RED |
| `ProcessStatus.ExampleOrange` | tests/test_rules.py:40-47 | three records of 2000 give average exactly 2000, status ORANGE |
| `ProcessStatus.ExampleGreen` | tests/test_rules.py:49-56 | three records of 2100 give average 2100, status GREEN |
| `ProcessStatus.ExampleSeasonalTaxed` | app/process_status.py:4-28 | December, June and January at 5000 give sum 15250.00, sumAfterTax 14182.50, average 4727.50, highest 5500.00, status GREEN |
| `Cache.TTLCache.constructor` | app/cache.py:5-7 | a new cache has the given ttl (60 when none is given) and an empty store; ttl is a constant field, so no later operation changes it |
| `Cache.NewDefaultCache` | app/cache.py:5-7 | a cache created without a lifetime has ttl 60 and an empty store |
| `Cache.TTLCache.Get` | app/cache.py:9-17 | an absent key gives None and leaves the store alone; an entry aged at most ttl (exactly ttl included) gives its value and leaves the store alone; an older entry gives None and only that key is removed |
| `Cache.TTLCache.Set` | app/cache.py:19-20 | the key now maps to (now, value), replacing any earlier entry; every other key keeps its entry |
| `Cache.SetThenGet` | app/cache.py:14-20 | a value written and read back at the same instant is returned when ttl ≥ 0; with a negative ttl the read evicts it and gives None |
| `Validator.IndexOf` | app/validator.py:8 | the first position of the character, or None exactly when it does not occur |
| `Validator.SplitOnce` | app/validator.py:8 | `split(sep, 1)`: the whole string when sep is absent, otherwise the text before and after the first sep, which rejoin to the input |
| `Validator.ValidateToken` | app/validator.py:4-10 | no configured token accepts; with one, a missing, empty or non-"Bearer " header is rejected; every rejection is 401 |
| `Validator.TokenAfterPrefix` | app/validator.py:6-8 | past the prefix check, split has two parts and the token is the text after "Bearer " |
| `Validator.AcceptsExactly` | app/validator.py:5-10 | with a token configured, a request is accepted iff its header is exactly "Bearer " + token |
| `Validator.NoTokenAcceptsAll` | app/validator.py:5 | with the token None or empty, every header, including none, is accepted |
| `Validator.BearerExampleMissing` | tests/test_auth_bonus.py:4-16 | with token "secret123", a request without a header is rejected with 401 |
| `Validator.BearerExampleWrong` | tests/test_auth_bonus.py:5-16 | "Bearer wrong" is rejected with 401 |
| `Validator.BearerExampleRight` | tests/test_auth_bonus.py:6-16 | "Bearer secret123" is accepted |

## Left out

- The HTTP handler in `app/api.py` is not part of this model. That covers routing, the
  mapping to HTTP errors, the float conversions of the response and its `LastUpdated`
  timestamp. The handler reads a `metrics["averageAfterTax"]` key that the engine never
  produces, and calls a `ProcessStatus` class that `app/process_status.py` does not
  define. Both mismatches are in that plumbing.
- Database access, ORM models, start-up seeding, the database logger, settings and
  request schemas are not modelled. They are I/O and third-party libraries.
- All `Decimal` arithmetic is exact in the model. Python's default context rounds
  every operation to 28 significant digits: the products at `app/process_status.py:6`,
  `:8` and `:18`, the additions inside `sum` at `:16` and the division at `:19`. That
  per-operation rounding is not modelled. Nor is the `InvalidOperation` that `quantize`
  at `:24-27` raises when the quantized coefficient would need more than 28 digits,
  that is for magnitudes of 10^26 and above.
- The cache's clock is an argument rather than `time.time()`, and its timestamps are
  exact reals rather than binary floats.
- Thread safety of the shared module-level cache instance is not modelled.
- Values that the cache stores are of an arbitrary type `V`. Python's `Any` is not modelled further.
- `ValidateToken` returns a decision instead of raising `HTTPException`. The `detail`
  text "Unauthorized" is not modelled.
- Month values outside 1-12 are accepted and left unscaled, as the code does. No
  validation of the month is modelled.
