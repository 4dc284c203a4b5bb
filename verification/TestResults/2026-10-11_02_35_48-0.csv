TestResult.DisplayName,TestResult.Outcome,TestResult.Duration,TestResult.ResourceCount,RandomSeed
ReportSections.ParseLoop (correctness),Passed,00:00:00.7965057,3336013,0
